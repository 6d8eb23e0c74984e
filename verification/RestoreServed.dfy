/**
 What a marker's owner gets: which requests are refused and why, that a request whose calls are
 served is honoured in full, and what the status says of a backup.
 */
module RestoreServed {
  import opened Wrappers
  import opened Turns
  import BackupSelection
  import opened Text
  import opened Conditions
  import VClusters
  import opened RestoreWorld
  import opened RestoreSequence
  import opened RestoreController
  import opened RestoreAside
  import opened RestoreOutcome

  // ---- what is refused before anything is read ----

  /** A backup name the sequence takes. */
  predicate Nameable(backup: string) {
    backup != "" && backup[0] in LOWER + NUMERALS && forall ch | ch in backup :: ch in LOWER + NUMERALS + {'.', '-'}
  }

  /** The request names a backup, and no other vcluster than its own. */
  predicate Proper(name: string, backup: string, target: string) {
    Nameable(backup) && (target == "" || (target == name && VClusters.Tenant(name)))
  }

  lemma NameableIs(backup: string)
    ensures Nameable(backup) <==> ValidBackupName(backup)
  {
    forall ch: char
      ensures ch in LOWER <==> 'a' <= ch <= 'z'
      ensures ch in NUMERALS <==> '0' <= ch <= '9'
    {
      LettersAre(ch);
    }
    hide UPPER, LOWER, NUMERALS;
  }

  /** A request is not attempted exactly when its backup has no proper name, or its target is
      another vcluster or no name at all; and then nothing at all is done. */
  lemma RefusedExactly(c: Site, name: string, backup: string, target: string, k: Calls)
    ensures var g := Create(c, name, backup, target, k);
            && (g.r == NotAttempted <==> !Proper(name, backup, target))
            && (g.r == NotAttempted ==> g.c == c)
  {
    NameableIs(backup);
    VClusters.ValidNameExactly(name);
    AttemptedTells(c, name, backup, target, k);
    hide Create, VClusters.ValidName, VClusters.Tenant, Nameable, ValidBackupName;
    if backup == "" {
      EmptyIsNoName();
    }
  }

  lemma EmptyIsNoName()
    ensures !ValidBackupName("")
  {
  }

  lemma AttemptedTells(c: Site, name: string, backup: string, target: string, k: Calls)
    ensures var g := Create(c, name, backup, target, k);
            (g.r == NotAttempted <==> !Attemptable(name, backup, target)) && (g.r == NotAttempted ==> g.c == c)
  {
    hide HappenAll, Detect, SetFluxSuspend, Attemptable, Quiesce, DeleteVolume, CreateRestore, GetBackupPhase;
  }

  // ---- with every call served ----

  predicate AllServed(k: Calls) {
    && k.backup.fate == Served && k.suspendHelm.fate == Served && k.suspendKustomization.fate == Served
    && k.detectEtcd.fate == Served && k.detectControlPlane.fate == Served
    && k.selector.fate == Served && k.etcdSelector.fate == Served
    && k.deleteControlPlane.fate == Served && k.deleteEtcd.fate == Served
    && k.deleteVolume.fate == Served && k.create.fate == Served
  }

  /** The names of the restores, whatever becomes of them. */
  predicate Untaken(c: Site, name: string) {
    forall r | r in c.restores :: r.name != name
  }

  lemma {:induction false} UntakenIs(restores: seq<Restore>, name: string)
    ensures Named(restores, name) == None <==> forall r | r in restores :: r.name != name
  {
    if restores == [] {
    } else {
      UntakenIs(restores[1..], name);
      assert restores == [restores[0]] + restores[1..];
    }
  }

  predicate SameNames(c: Site, d: Site) {
    |d.restores| == |c.restores| && forall i | 0 <= i < |c.restores| :: d.restores[i].name == c.restores[i].name
  }

  lemma NamesAre(c: Site, d: Site, name: string)
    requires SameNames(c, d)
    ensures Untaken(c, name) <==> Untaken(d, name)
  {
    if !Untaken(c, name) {
      var i :| 0 <= i < |c.restores| && c.restores[i].name == name;
      assert d.restores[i] in d.restores;
    }
    if !Untaken(d, name) {
      var i :| 0 <= i < |d.restores| && d.restores[i].name == name;
      assert c.restores[i] in c.restores;
    }
  }

  lemma EventKeepsNames(c: Site, e: Event)
    ensures SameNames(c, Happen(c, e))
  {
    if e.VeleroRebuilds? || e.FluxRebuilds? {
      RebuiltSame(c, e.external, e.deployment, e.statefulSet, e.etcd);
      hide Happen, Rebuilt, WithVolume;
      EventIs(c, e);
    } else if e.VolumeReleased? {
      RebuiltSame(c, e.external, false, false, false);
      hide Happen, Rebuilt, WithVolume;
      EventIs(c, e);
    }
  }

  lemma {:induction false} EventsKeepNames(c: Site, es: seq<Event>)
    ensures SameNames(c, HappenAll(c, es))
  {
    hide Happen;
    if es == [] {
    } else {
      EventsKeepNames(c, es[..|es| - 1]);
      EventKeepsNames(HappenAll(c, es[..|es| - 1]), es[|es| - 1]);
    }
  }

  lemma TurnKeepsNames(c: Site, t: Turn)
    ensures SameNames(c, At(c, t))
  {
    EventsKeepNames(c, t.before);
    hide HappenAll;
  }

  lemma SuspendIsServed(c: Site, k: Calls)
    requires AllServed(k)
    ensures var (d, f) := SetFluxSuspend(c, k.suspendHelm, k.suspendKustomization, true);
            f == Fine && SameNames(c, d)
  {
    TurnKeepsNames(c, k.suspendHelm);
    TurnKeepsNames(PatchHelmRelease(c, k.suspendHelm, true).0, k.suspendKustomization);
    hide HappenAll;
  }

  lemma DeletionsAreServed(c: Site, k: Calls, topo: Topology)
    requires AllServed(k)
    ensures var (d, f) := DeleteControlPlane(c, k.deleteControlPlane, topo.deployment);
            var (e, h) := DeleteEtcd(d, k.deleteEtcd);
            f == Fine && h == Fine && SameNames(c, d) && SameNames(c, e)
  {
    TurnKeepsNames(c, k.deleteControlPlane);
    TurnKeepsNames(DeleteControlPlane(c, k.deleteControlPlane, topo.deployment).0, k.deleteEtcd);
    hide HappenAll;
  }

  lemma QuiesceIsServed(c: Site, k: Calls)
    requires AllServed(k)
    ensures var (d, f, topo) := Quiesce(c, k);
            f == Fine && SameNames(c, d)
  {
    TurnKeepsNames(c, k.detectEtcd);
    TurnKeepsNames(At(c, k.detectEtcd), k.detectControlPlane);
    var (c1, f1, topo) := Detect(c, k.detectEtcd, k.detectControlPlane);
    TurnKeepsNames(c1, k.selector);
    var c2 := At(c1, k.selector);
    TurnKeepsNames(c2, k.etcdSelector);
    var c3 := if topo.external then At(c2, k.etcdSelector) else c2;
    DeletionsAreServed(c3, k, topo);
    hide HappenAll, DeleteControlPlane, DeleteEtcd;
  }

  lemma VolumeIsServed(c: Site, topo: Topology, from: string, k: Calls)
    requires AllServed(k)
    ensures VolumeStage(c, topo, from, k).r == (if Untaken(c, k.name) then Made(k.name) else StageFailureVolumeGone)
  {
    TurnKeepsNames(c, k.deleteVolume);
    var c1 := DeleteVolume(c, k.deleteVolume, topo.external).0;
    TurnKeepsNames(c1, k.create);
    var c2 := At(c1, k.create);
    assert SameNames(c, c1) by {
      hide HappenAll, Volume;
    }
    assert SameNames(c, c2) by {
      hide DeleteVolume, HappenAll;
    }
    NamesAre(c, c2, k.name);
    UntakenIs(c2.restores, k.name);
    hide HappenAll, Named, Abort, Volume, SameNames;
  }

  predicate BackupIs(c: Site, name: string, phase: string) {
    name in c.backups && c.backups[name] == phase
  }

  /** With every call served, the sequence makes the restore exactly when the request is proper,
      its backup is Completed when it is read, and the new restore's name is not taken. */
  lemma ServedSequenceSucceedsExactly(c: Site, name: string, backup: string, target: string, k: Calls)
    requires AllServed(k)
    ensures var g := Create(c, name, backup, target, k);
            && (g.r.Made? <==> Proper(name, backup, target) && BackupIs(At(c, k.backup), backup, "Completed")
                               && Untaken(c, k.name))
            && (g.r.Made? ==> g.r.name == k.name)
  {
    RefusedExactly(c, name, backup, target, k);
    AttemptedTells(c, name, backup, target, k);
    var c1 := GetBackupPhase(c, k.backup, backup).0;
    BackupIsServed(c, backup, k);
    SuspendIsServed(c1, k);
    var c2 := SetFluxSuspend(c1, k.suspendHelm, k.suspendKustomization, true).0;
    QuiesceIsServed(c2, k);
    var (c3, f, topo) := Quiesce(c2, k);
    VolumeIsServed(c3, topo, backup, k);
    NamesAre(c, c1, k.name);
    NamesAre(c1, c2, k.name);
    NamesAre(c2, c3, k.name);
    hide GetBackupPhase, SetFluxSuspend, Quiesce, VolumeStage, Untaken, SameNames, Proper, BackupIs, Attemptable, At;
  }

  lemma BackupIsServed(c: Site, backup: string, k: Calls)
    requires k.backup.fate == Served
    ensures var (d, phase) := GetBackupPhase(c, k.backup, backup);
            && (phase == Some("Completed") <==> BackupIs(At(c, k.backup), backup, "Completed")) && SameNames(c, d)
  {
    TurnKeepsNames(c, k.backup);
    hide HappenAll;
  }

  // ---- quiescing ----

  /** Flux is suspended and Velero at rest: nobody rebuilds anything. */
  predicate AtRest(c: Site) {
    c.helmSuspended && forall r | r in c.restores :: !IsActive(r)
  }

  predicate SameWorkloads(c: Site, d: Site) {
    d.deployment == c.deployment && d.statefulSet == c.statefulSet && d.etcd == c.etcd
  }

  lemma {:induction false} RestIs(restores: seq<Restore>)
    requires forall r | r in restores :: !IsActive(r)
    ensures FirstActive(restores) == None
  {
    hide IsActive;
    if restores == [] {
    } else {
      RestIs(restores[1..]);
    }
  }

  lemma EventAtRest(c: Site, e: Event)
    requires AtRest(c)
    ensures AtRest(Happen(c, e)) && SameWorkloads(c, Happen(c, e))
  {
    RestIs(c.restores);
    hide FirstActive, Rebuilt, Volume, IsActive;
  }

  lemma {:induction false} EventsAtRest(c: Site, es: seq<Event>)
    requires AtRest(c)
    ensures AtRest(HappenAll(c, es)) && SameWorkloads(c, HappenAll(c, es))
  {
    hide Happen, AtRest;
    if es == [] {
    } else {
      EventsAtRest(c, es[..|es| - 1]);
      EventAtRest(HappenAll(c, es[..|es| - 1]), es[|es| - 1]);
    }
  }

  lemma TurnAtRest(c: Site, t: Turn)
    requires AtRest(c)
    ensures AtRest(At(c, t)) && SameWorkloads(c, At(c, t))
  {
    EventsAtRest(c, t.before);
    hide HappenAll, AtRest;
  }

  /** One control plane: a StatefulSet where etcd is embedded, either kind where it is not. */
  predicate Deployed(c: Site) {
    c.deployment != c.statefulSet && (c.deployment ==> c.etcd)
  }

  /** With Flux suspended and nothing being restored, a quiesced vcluster runs nothing at all. */
  lemma QuiescedIsDown(c: Site, k: Calls)
    requires AtRest(c) && Deployed(c) && Quiesce(c, k).1 == Fine && k.detectControlPlane.fate == Served
    ensures var d := Quiesce(c, k).0;
            !d.deployment && !d.statefulSet && !d.etcd
  {
    TurnAtRest(c, k.detectEtcd);
    TurnAtRest(At(c, k.detectEtcd), k.detectControlPlane);
    var (c1, f1, topo) := Detect(c, k.detectEtcd, k.detectControlPlane);
    TurnAtRest(c1, k.selector);
    var c2 := At(c1, k.selector);
    TurnAtRest(c2, k.etcdSelector);
    var c3 := if topo.external then At(c2, k.etcdSelector) else c2;
    TurnAtRest(c3, k.deleteControlPlane);
    var c4 := DeleteControlPlane(c3, k.deleteControlPlane, topo.deployment).0;
    assert AtRest(c4);
    TurnAtRest(c4, k.deleteEtcd);
    hide HappenAll, AtRest;
  }

  // ---- a request ----

  /** A condition as it is shown. */
  predicate Shows(st: OpsStatus, kind: CondType, status: ConditionStatus, reason: Reason) {
    HasStatus(st.conditions, kind, status) && HasReason(st.conditions, kind, reason)
  }

  /** A restore is recorded as not ended. */
  predicate Running(r: RestoreStatus) {
    r.name != "" && r.phase !in {"Completed", "Failed", "PartiallyFailed"}
  }

  /** A request that comes while a restore runs is deferred: told so, not consumed, nothing
      done, and looked at again. */
  lemma BusyIsDeferred(c: Site, name: string, l: Local, p: Pass)
    requires WantsRestore(l) && Running(l.st.restore)
    ensures var s := ReconcileRestore(c, name, l, p);
            && s.c == c && s.end == Wants(10) && s.l.read == l.read && s.l.version == l.version
            && s.l.st.restore == l.st.restore && s.l.st.backup == l.st.backup
            && Shows(s.l.st, RestoreRejectedBusy, ConditionTrue, AlreadyRunning)
  {
    hide Set, Find;
  }

  /** A request for another vcluster is consumed and refused: told so, nothing done. */
  lemma ForeignIsRefused(c: Site, name: string, l: Local, p: Pass)
    requires WantsRestore(l) && !Running(l.st.restore) && l.read.target !in {"", name}
    ensures var s := ReconcileRestore(c, name, l, p);
            && s.c == c && s.end == Wants(0)
            && s.l.st.restore == l.st.restore.(handled := l.read.restoreAsk)
            && Shows(s.l.st, Accepted, ConditionFalse, TargetOutsideMarker)
  {
    hide Set, Find;
  }

  /** Where the sequence is called from: the reservation is stored. */
  function Reserved(c: Site, l: Local, p: Pass): (Site, Local, Flow) {
    Store(c, p.reserve, l.(st := Reservation(l.read, l.st, c.now)))
  }

  lemma ReservedIsCalled(c: Site, name: string, l: Local, p: Pass)
    requires WantsRestore(l) && !Running(l.st.restore) && (l.read.target == "" || l.read.target == name)
    requires Reserved(c, l, p).2 == Fine
    ensures var (d, l1, f) := Reserved(c, l, p);
            ReconcileRestore(c, name, l, p) == CallSequence(d, name, l1, p)
  {
    hide Store, Reservation, CallSequence;
  }

  /** What the sequence makes is recorded on the reservation. */
  lemma MadeIsRecorded(c: Site, name: string, l: Local, p: Pass, made: string)
    requires Create(Logged(c, Called(l.read.restoreAsk)), name, l.read.fromBackup, l.read.target, p.sequence).r == Made(made)
    ensures var s := CallSequence(c, name, l, p);
            && s.c == Create(Logged(c, Called(l.read.restoreAsk)), name, l.read.fromBackup, l.read.target, p.sequence).c
            && s.l.st == l.st.(restore := l.st.restore.(name := made, phase := "New", inPlace := true)) && s.end == Wants(10)
  {
    hide Create;
  }

  /** What was told of the request before is taken back. */
  predicate Afresh(st: OpsStatus) {
    Find(st.conditions, RestoreRejectedBusy) == None && Find(st.conditions, RestoreNeedsRetry) == None
  }

  lemma ReservationShows(m: Marker, st: OpsStatus, now: int)
    ensures var r := Reservation(m, st, now);
            && Shows(r, RestoreInProgress, ConditionTrue, Requested) && Afresh(r)
            && r.restore == RestoreStatus(m.restoreAsk, m.fromBackup, m.target, true, "", "New", false, false, false, None)
  {
    hide Set, Find, Remove;
  }

  /** A request whose reservation is acknowledged and whose calls are served is honoured, from an
      intact start: every step of the trail is done on the backup it names, the restore is made
      from that backup and recorded under its name, and looked at again. */
  lemma ServedRequestIsHonoured(c: Site, name: string, l: Local, p: Pass, external: bool)
    requires WantsRestore(l) && !Running(l.st.restore) && AllServed(p.sequence) && FitsMode(p.sequence, external)
    requires var (d, _, f) := Reserved(c, l, p);
             && f == Fine && Intact(d, external) && Untaken(d, p.sequence.name)
             && Proper(name, l.read.fromBackup, l.read.target)
             && BackupIs(At(Logged(d, Called(l.read.restoreAsk)), p.sequence.backup), l.read.fromBackup, "Completed")
    ensures var s := ReconcileRestore(c, name, l, p);
            var made := p.sequence.name;
            && s.l.st.restore == RestoreStatus(l.read.restoreAsk, l.read.fromBackup, l.read.target, true,
                                               made, "New", false, false, false, None)
            && Shows(s.l.st, RestoreInProgress, ConditionTrue, Requested) && Afresh(s.l.st) && s.end == Wants(10)
            && exists topo: Topology | topo.external == external ::
                 s.c.log == c.log + [Called(l.read.restoreAsk)] + Trail(l.read.fromBackup, topo)
                                  + [CreatedRestore(made, l.read.fromBackup)]
  {
    var (d, l1, f) := Reserved(c, l, p);
    var a := Logged(d, Called(l.read.restoreAsk));
    StoreTells(c, p.reserve, l.(st := Reservation(l.read, l.st, c.now)));
    SameUntaken(d, a, p.sequence.name, external);
    ServedSequenceSucceedsExactly(a, name, l.read.fromBackup, l.read.target, p.sequence);
    OutcomeIsTold(a, name, l.read.fromBackup, l.read.target, p.sequence, external);
    ReservedIsCalled(c, name, l, p);
    MadeIsRecorded(d, name, l1, p, p.sequence.name);
    ReservationShows(l.read, l.st, c.now);
    hide Create, Reservation, Store, Trail, Shows, Worked, FitsMode, Intact, Untaken, AllServed, Aside, ReconcileRestore,
         CallSequence, HappenAll, BackupIs, WantsRestore, Volume, NoDeletion, VClusters.Tenant, Nameable, Afresh;
  }

  lemma SameUntaken(c: Site, d: Site, name: string, external: bool)
    requires Untaken(c, name) && Intact(c, external) && d == c.(log := d.log)
    ensures Untaken(d, name) && Intact(d, external)
  {
  }

  // ---- a restore that is followed ----

  /** The time a restore was first seen ended, this poll included. */
  function FirstSeen(r: RestoreStatus, now: int): int {
    if r.firstTerminalAt.Some? then r.firstTerminalAt.value else now
  }

  lemma CondShows(st: OpsStatus, kind: CondType, status: ConditionStatus, reason: Reason, now: int)
    ensures var told := WithCond(st, kind, status, reason, now);
            && told.restore == st.restore && told.backup == st.backup && Shows(told, kind, status, reason)
            && forall k, v, w | k != kind :: Shows(st, k, v, w) ==> Shows(told, k, v, w)
  {
    hide Set, Find;
  }

  /** A restore still at work. */
  lemma WorkIsTold(st: OpsStatus, v: View, now: int)
    requires v.phase !in {"Completed", "Failed", "PartiallyFailed"}
    ensures var (told, requeue) := Followed(st, v, now);
            && Shows(told, RestoreInProgress, ConditionTrue, InProgress) && requeue == 10
            && told.restore == st.restore.(phase := v.phase, resumePending := v.resumePending, resumeFailed := false,
                                           volumeDestroyed := v.volumeDestroyed)
  {
    var r := st.restore.(phase := v.phase, resumePending := v.resumePending, resumeFailed := false,
                         volumeDestroyed := v.volumeDestroyed);
    CondShows(WithRestore(st, r), RestoreInProgress, ConditionTrue, InProgress, now);
    hide WithCond, Shows;
  }

  /** A restore that ended, Flux not back: waited for two hours from when it was first seen, and
      then given up. */
  lemma PendingIsTold(st: OpsStatus, v: View, now: int)
    requires v.phase in {"Completed", "Failed", "PartiallyFailed"} && v.resumePending
    ensures var (told, requeue) := Followed(st, v, now);
            var late := now - FirstSeen(st.restore, now) > 7200;
            && told.restore == st.restore.(phase := v.phase, resumePending := !late, resumeFailed := late,
                                           volumeDestroyed := v.volumeDestroyed,
                                           firstTerminalAt := Some(FirstSeen(st.restore, now)))
            && Shows(told, FluxResumePending, ConditionTrue, if late then ResumeGaveUp else ResumePending)
            && requeue == (if late then 0 else 10)
  {
    var late := now - FirstSeen(st.restore, now) > 7200;
    var r := st.restore.(phase := v.phase, resumePending := !late, resumeFailed := late, volumeDestroyed := v.volumeDestroyed,
                         firstTerminalAt := Some(FirstSeen(st.restore, now)));
    CondShows(WithRestore(st, r), FluxResumePending, ConditionTrue, if late then ResumeGaveUp else ResumePending, now);
    hide WithCond, Shows;
  }

  /** A restore that ended, Flux back: it is over, well or badly. */
  lemma EndIsTold(st: OpsStatus, v: View, now: int)
    requires v.phase in {"Completed", "Failed", "PartiallyFailed"} && !v.resumePending
    ensures var (told, requeue) := Followed(st, v, now);
            && told.restore == st.restore.(phase := v.phase, resumePending := false, resumeFailed := false,
                                           volumeDestroyed := v.volumeDestroyed,
                                           firstTerminalAt := Some(FirstSeen(st.restore, now)))
            && Shows(told, FluxResumePending, ConditionFalse, Resumed)
            && Shows(told, RestoreInProgress, ConditionFalse, if v.phase == "Completed" then Reason.Completed else Reason.Failed)
            && (v.volumeDestroyed ==> Shows(told, RestoreNeedsRetry, ConditionTrue, VolumeDestroyed)) && requeue == 0
  {
    var r := st.restore.(phase := v.phase, resumePending := false, resumeFailed := false, volumeDestroyed := v.volumeDestroyed,
                         firstTerminalAt := Some(FirstSeen(st.restore, now)));
    var s0 := WithRestore(st, r);
    CondShows(s0, FluxResumePending, ConditionFalse, Resumed, now);
    var s1 := WithCond(s0, FluxResumePending, ConditionFalse, Resumed, now);
    var why := if v.phase == "Completed" then Reason.Completed else Reason.Failed;
    CondShows(s1, RestoreInProgress, ConditionFalse, why, now);
    CondShows(WithCond(s1, RestoreInProgress, ConditionFalse, why, now), RestoreNeedsRetry, ConditionTrue, VolumeDestroyed, now);
    hide WithCond, Shows;
  }

  // ---- backups ----

  /** A backup request whose reservation is acknowledged is asked for, once, under the name then
      recorded; it is looked at again, unless the asking failed, and that is told. */
  lemma BackupRequestIsTaken(c: Site, l: Local, p: Pass)
    requires WantsBackup(l) && Store(c, p.consume, l.(st := l.st.(backup := BackupStatus(l.read.backupAsk, "", "New")))).2 == Fine
    ensures var s := ReconcileBackup(c, l, p);
            && s.l.st.restore == l.st.restore
            && (p.trigger.fate == Served ==>
                  && s.c.log == c.log + [TriggeredBackup(l.read.backupAsk)] && BackupIs(s.c, p.backupName, "")
                  && s.l.st.backup == BackupStatus(l.read.backupAsk, p.backupName, "New")
                  && Shows(s.l.st, BackupCompleted, ConditionUnknown, InProgress) && s.end == Wants(10))
            && (p.trigger.fate in {Refused, Lost} ==>
                  && s.l.st.backup == BackupStatus(l.read.backupAsk, "", "Failed")
                  && Shows(s.l.st, BackupCompleted, ConditionFalse, TriggerFailed) && s.end == Wants(0))
            && (p.trigger.fate == Refused ==> s.c.log == c.log)
  {
    var l0 := l.(st := l.st.(backup := BackupStatus(l.read.backupAsk, "", "New")));
    StoreTells(c, p.consume, l0);
    var c1 := Store(c, p.consume, l0).0;
    TurnIsAside(c1, p.trigger);
    hide Store, HappenAll, Aside, Set, Find;
  }

  /** The pass looks at a backup that is not known to have ended. */
  predicate AwaitsBackup(l: Local) {
    && !WantsBackup(l) && l.st.backup.name != ""
    && l.st.backup.phase !in {"Completed", "Failed", "PartiallyFailed", "FailedValidation", "Deleting"}
  }

  /** A backup awaited is told by the phase it is read in; it is looked at again exactly while it
      has not ended. */
  lemma BackupIsToldByPhase(c: Site, l: Local, phase: string, p: Pass)
    requires AwaitsBackup(l) && p.getBackup.fate == Served && BackupIs(At(c, p.getBackup), l.st.backup.name, phase)
    ensures var s := ReconcileBackup(c, l, p);
            && s.l.st.backup == l.st.backup.(phase := phase) && s.l.st.restore == l.st.restore
            && (phase == "Completed" ==> Shows(s.l.st, BackupCompleted, ConditionTrue, Reason.Completed))
            && (phase in {"Failed", "PartiallyFailed", "FailedValidation", "Deleting"} ==>
                  Shows(s.l.st, BackupCompleted, ConditionFalse, Reason.Failed))
            && s.end == Wants(if phase in {"Completed", "Failed", "PartiallyFailed", "FailedValidation", "Deleting"} then 0 else 10)
  {
    hide HappenAll, Set, Find;
  }
}
