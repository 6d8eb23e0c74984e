/**
 Where what is done and what is told comes from, over every interleaving of any number of
 controller instances: every volume deleted and every restore made answers a request, from the
 very backup it names, read Completed for it; and nothing is told restored, resumed or put back
 that the log does not bear out.
 */
module RestoreProvenance {
  import opened Wrappers
  import opened Turns
  import BackupSelection
  import opened Conditions
  import opened RestoreWorld
  import opened RestoreSequence
  import opened RestoreController
  import opened RestoreAside
  import opened RestoreResume
  import opened RestoreSteps

  // ---- what is done ----

  predicate Destructive(e: Entry) {
    e.DeletedVolume? || e.CreatedRestore?
  }

  /** Entry `j` is the last call of the sequence before entry `i`. */
  ghost predicate CalledLast(log: seq<Entry>, j: nat, i: nat) {
    j < i <= |log| && log[j].Called? && forall k | j < k < i :: !log[k].Called?
  }

  /** Entry `i` belongs to a call for a request some version of the marker carries, and comes
      after the backup which that version names was read Completed; a restore is made from it. */
  ghost predicate SourcedBy(log: seq<Entry>, m: Marker, i: nat) {
    i < |log| && exists j: nat, r: nat | j < r < i ::
      && CalledLast(log, j, i) && log[j] == Called(m.restoreAsk) && log[r] == ReadBackup(m.fromBackup, "Completed")
      && (log[i].CreatedRestore? ==> log[i].from == m.fromBackup)
  }

  ghost predicate Sourced(log: seq<Entry>, ms: seq<Marker>) {
    forall i: nat | i < |log| && Destructive(log[i]) :: exists m | m in ms :: SourcedBy(log, m, i)
  }

  // ---- what is told ----

  /** The restore was polled and found ended, and then both Flux objects were put back. */
  ghost predicate ResumedIn(log: seq<Entry>, name: string) {
    exists i: nat, phase | i < |log| && Ended(phase) :: log[i] == PolledRestore(name, phase) && PutBack(log[..i], log)
  }

  ghost predicate AnyPutBack(log: seq<Entry>) {
    PutBack([], log)
  }

  ghost predicate PolledAny(log: seq<Entry>, phase: string) {
    exists name :: PolledRestore(name, phase) in log
  }

  ghost predicate ReadAny(log: seq<Entry>, phase: string) {
    exists name :: ReadBackup(name, phase) in log
  }

  /** The recorded restore is over, Flux back and not given up. */
  predicate OverWith(r: RestoreStatus) {
    r.name != "" && Ended(r.phase) && !r.resumePending && !r.resumeFailed
  }

  /** What a record of a restore says really was so. */
  ghost predicate HonestRecord(log: seq<Entry>, r: RestoreStatus) {
    && (OverWith(r) ==> ResumedIn(log, r.name))
    && (r.name != "" || r.phase == "New" ==> r.inPlace)
  }

  /** What a condition says really was so. */
  ghost predicate BearsOut(log: seq<Entry>, kind: CondType, status: ConditionStatus, reason: Reason) {
    && (kind == FluxResumePending && reason == Resumed ==> exists name :: ResumedIn(log, name))
    && (kind == RestoreInProgress && reason == Reason.Completed ==> PolledAny(log, "Completed"))
    && (kind == RestoreInProgress && reason == Aborted ==> AnyPutBack(log))
    && (kind == BackupCompleted && status == ConditionTrue ==> ReadAny(log, "Completed"))
  }

  ghost predicate HonestConds(log: seq<Entry>, conds: seq<Condition>) {
    forall kind | Find(conds, kind).Some? :: BearsOut(log, kind, Find(conds, kind).value.status, Find(conds, kind).value.reason)
  }

  ghost predicate Honest(log: seq<Entry>, st: OpsStatus) {
    HonestRecord(log, st.restore) && HonestConds(log, st.conditions)
  }

  /** Setting a condition that is borne out. */
  lemma SetIsHonest(log: seq<Entry>, st: OpsStatus, kind: CondType, status: ConditionStatus, reason: Reason, now: int)
    requires HonestConds(log, st.conditions) && BearsOut(log, kind, status, reason)
    ensures HonestConds(log, WithCond(st, kind, status, reason, now).conditions)
    ensures WithCond(st, kind, status, reason, now).restore == st.restore
  {
    hide Find, Set, BearsOut;
  }

  /** A condition nobody asks to be borne out. */
  predicate Plain(kind: CondType, status: ConditionStatus, reason: Reason) {
    reason != Resumed && reason != Reason.Completed && reason != Aborted && (kind == BackupCompleted ==> status != ConditionTrue)
  }

  lemma PlainIsHonest(log: seq<Entry>, st: OpsStatus, kind: CondType, status: ConditionStatus, reason: Reason, now: int)
    requires HonestConds(log, st.conditions) && Plain(kind, status, reason)
    ensures HonestConds(log, WithCond(st, kind, status, reason, now).conditions)
    ensures WithCond(st, kind, status, reason, now).restore == st.restore
  {
    assert BearsOut(log, kind, status, reason);
    hide HonestConds, BearsOut;
    SetIsHonest(log, st, kind, status, reason, now);
  }

  ghost predicate Remembers(log: seq<Entry>, resolved: set<string>) {
    forall name | name in resolved :: ResumedIn(log, name)
  }

  /** An instance works on a version that was, with a status that is honest. */
  ghost predicate Grounded(c: Site, x: Instance) {
    && Remembers(c.log, x.resolved)
    && (x.stage == Resting || (x.stage.l.read in c.markers && Honest(c.log, x.stage.l.st)))
    && (x.stage.RestoreReserved? ==> x.stage.l.st.restore.name == "")
  }

  ghost predicate Borne(c: Site) {
    Sourced(c.log, c.markers) && forall m | m in c.markers :: Honest(c.log, m.status)
  }

  ghost predicate Inv(s: System) {
    Borne(s.c) && forall i | i in s.instances :: Grounded(s.c, s.instances[i])
  }

  // ---- what stays true as the log goes on ----

  lemma PutBackStays(a: seq<Entry>, b: seq<Entry>, c: seq<Entry>)
    requires PutBack(a, b) && b <= c
    ensures PutBack(a, c)
  {
    var i, j :| |a| <= i < j < |b| && b[i] == PatchedHelmRelease(false) && b[j] == PatchedKustomization(false);
    assert c[i] == b[i] && c[j] == b[j];
  }

  lemma ResumedStays(a: seq<Entry>, b: seq<Entry>, name: string)
    requires ResumedIn(a, name) && a <= b
    ensures ResumedIn(b, name)
  {
    var i: nat, phase :| i < |a| && Ended(phase) && a[i] == PolledRestore(name, phase) && PutBack(a[..i], a);
    PutBackStays(a[..i], a, b);
    assert b[i] == a[i] && b[..i] == a[..i];
  }

  lemma HonestStays(a: seq<Entry>, b: seq<Entry>, st: OpsStatus)
    requires Honest(a, st) && a <= b
    ensures Honest(b, st)
  {
    forall name | ResumedIn(a, name)
      ensures ResumedIn(b, name)
    {
      ResumedStays(a, b, name);
    }
    forall kind | Find(st.conditions, kind).Some?
      ensures BearsOut(b, kind, Find(st.conditions, kind).value.status, Find(st.conditions, kind).value.reason)
    {
      BearsOutStays(a, b, kind, Find(st.conditions, kind).value.status, Find(st.conditions, kind).value.reason);
    }
    hide ResumedIn, BearsOut, Find, Ended;
  }

  lemma BearsOutStays(a: seq<Entry>, b: seq<Entry>, kind: CondType, status: ConditionStatus, reason: Reason)
    requires BearsOut(a, kind, status, reason) && a <= b
    ensures BearsOut(b, kind, status, reason)
  {
    forall name | ResumedIn(a, name)
      ensures ResumedIn(b, name)
    {
      ResumedStays(a, b, name);
    }
    if AnyPutBack(a) {
      PutBackStays([], a, b);
    }
    assert forall e | e in a :: e in b;
    hide ResumedIn, PutBack;
  }

  lemma RemembersStays(a: seq<Entry>, b: seq<Entry>, resolved: set<string>)
    requires Remembers(a, resolved) && a <= b
    ensures Remembers(b, resolved)
  {
    forall name | name in resolved
      ensures ResumedIn(b, name)
    {
      ResumedStays(a, b, name);
    }
  }

  lemma SourcedByStays(a: seq<Entry>, b: seq<Entry>, m: Marker, i: nat)
    requires SourcedBy(a, m, i) && a <= b
    ensures SourcedBy(b, m, i)
  {
    var j: nat, r: nat :| j < r < i && CalledLast(a, j, i) && a[j] == Called(m.restoreAsk)
                          && a[r] == ReadBackup(m.fromBackup, "Completed")
                          && (a[i].CreatedRestore? ==> a[i].from == m.fromBackup);
    assert forall k | 0 <= k < |a| :: b[k] == a[k];
    assert CalledLast(b, j, i);
  }

  /** The log went on without destroying or making anything. */
  ghost predicate Gentle(before: seq<Entry>, after: seq<Entry>) {
    before <= after && forall i | |before| <= i < |after| :: !Destructive(after[i])
  }

  lemma GentleTwice(a: seq<Entry>, b: seq<Entry>, c: seq<Entry>)
    requires Gentle(a, b) && Gentle(b, c)
    ensures Gentle(a, c)
  {
    forall i | |a| <= i < |c|
      ensures !Destructive(c[i])
    {
      assert i < |b| ==> c[i] == b[i];
    }
  }

  lemma SourcedStays(a: seq<Entry>, b: seq<Entry>, ms: seq<Marker>, ns: seq<Marker>)
    requires Sourced(a, ms) && Gentle(a, b) && ms <= ns
    ensures Sourced(b, ns)
  {
    hide SourcedBy;
    forall i: nat | i < |b| && Destructive(b[i])
      ensures exists m | m in ns :: SourcedBy(b, m, i)
    {
      assert i < |a| && b[i] == a[i];
      var m :| m in ms && SourcedBy(a, m, i);
      assert m in ns;
      SourcedByStays(a, b, m, i);
    }
  }

  // ---- what one step leaves ----

  /** Later, with nothing destroyed or made, and no version but the requesters'. */
  ghost predicate Onward(c: Site, d: Site) {
    Grown(c, d) && Gentle(c.log, d.log)
  }

  lemma OnwardTwice(a: Site, b: Site, c: Site)
    requires Onward(a, b) && Onward(b, c)
    ensures Onward(a, c)
  {
    GrownTwice(a, b, c);
    GentleTwice(a.log, b.log, c.log);
    hide Grown, Gentle;
  }

  lemma OnwardKeeps(c: Site, d: Site)
    requires Borne(c) && Onward(c, d)
    ensures Borne(d) && c.log <= d.log && c.markers <= d.markers
  {
    GrownIs(c, d);
    SourcedStays(c.log, d.log, c.markers, d.markers);
    forall m | m in d.markers
      ensures Honest(d.log, m.status)
    {
      var n :| n in c.markers && n.status == m.status;
      HonestStays(c.log, d.log, n.status);
    }
    hide Sourced, Honest, Gentle, Grown;
  }

  predicate Stood(ms: seq<Marker>, st: OpsStatus) {
    exists n | n in ms :: n.status == st
  }

  /** Every version's status is one that stood before. */
  lemma GrownIs(c: Site, d: Site)
    requires Grown(c, d)
    ensures c.markers <= d.markers
    ensures forall m | m in d.markers :: Stood(c.markers, m.status)
  {
    forall m | m in d.markers
      ensures Stood(c.markers, m.status)
    {
      var k :| 0 <= k < |d.markers| && d.markers[k] == m;
      assert k < |c.markers| ==> d.markers[..|c.markers|][k] == c.markers[k];
      var n := if k < |c.markers| then c.markers[k] else Current(c);
      assert n in c.markers && n.status == m.status;
    }
  }

  /** A status write of an honest status. */
  lemma StoreKeeps(c: Site, t: Turn, l: Local)
    requires Borne(c) && Honest(c.log, l.st)
    ensures var (d, l', f) := Store(c, t, l);
            Borne(d) && d.log == c.log && c.markers <= d.markers && l'.st == l.st && l'.read == l.read
            && d.resolved <= c.resolved
  {
    StoreTells(c, t, l);
    TurnLeavesFlux(c, t);
    var a := At(c, t);
    var (d, l', f) := Store(c, t, l);
    assert d.resolved == a.resolved by {
      hide HappenAll;
    }
    assert Onward(c, a);
    OnwardKeeps(c, a);
    hide Sourced, Honest, Grown, HappenAll, Store;
    if d.markers != a.markers {
      Appended(a, Current(a).(status := l.st));
    }
  }

  lemma Appended(c: Site, m: Marker)
    requires Borne(c) && Honest(c.log, m.status)
    ensures Borne(c.(markers := c.markers + [m]))
  {
    SourcedMore(c.log, c.markers, m);
    hide Sourced, Honest;
    assert forall n | n in c.markers + [m] :: n in c.markers || n == m;
  }

  lemma SourcedMore(log: seq<Entry>, ms: seq<Marker>, m: Marker)
    requires Sourced(log, ms)
    ensures Sourced(log, ms + [m])
  {
    hide SourcedBy;
    forall i: nat | i < |log| && Destructive(log[i])
      ensures exists n | n in ms + [m] :: SourcedBy(log, n, i)
    {
      var n :| n in ms && SourcedBy(log, n, i);
      assert n in ms + [m];
    }
  }

  // ---- the sequence ----

  /** A sequence's own entries: no call, and restores made from one backup only. */
  ghost predicate Works(before: seq<Entry>, after: seq<Entry>, from: string) {
    before <= after && forall i | |before| <= i < |after| :: WorksWith(after[i], from)
  }

  predicate WorksWith(e: Entry, from: string) {
    !e.Called? && (e.CreatedRestore? ==> e.from == from)
  }

  lemma WorksTwice(a: seq<Entry>, b: seq<Entry>, c: seq<Entry>, from: string)
    requires Works(a, b, from) && Works(b, c, from)
    ensures Works(a, c, from)
  {
    forall i | |a| <= i < |c|
      ensures WorksWith(c[i], from)
    {
      assert i < |b| ==> c[i] == b[i];
    }
  }

  /** A call that logs at most one entry. */
  lemma OneWorks(before: seq<Entry>, after: seq<Entry>, e: Entry, from: string)
    requires (after == before || after == before + [e]) && WorksWith(e, from)
    ensures Works(before, after, from)
  {
  }

  lemma FluxWorks(c: Site, helm: Turn, kustomization: Turn, suspend: bool, from: string)
    ensures Works(c.log, SetFluxSuspend(c, helm, kustomization, suspend).0.log, from)
  {
    TurnLeavesFlux(c, helm);
    var c1 := PatchHelmRelease(c, helm, suspend).0;
    OneWorks(c.log, c1.log, PatchedHelmRelease(suspend), from);
    TurnLeavesFlux(c1, kustomization);
    var c2 := PatchKustomization(c1, kustomization, suspend).0;
    OneWorks(c1.log, c2.log, PatchedKustomization(suspend), from);
    WorksTwice(c.log, c1.log, c2.log, from);
    hide HappenAll, Works;
  }

  lemma WorkloadsWork(c: Site, k: Calls, topo: Topology, from: string)
    ensures var c1 := DeleteControlPlane(c, k.deleteControlPlane, topo.deployment).0;
            Works(c.log, c1.log, from) && Works(c.log, DeleteEtcd(c1, k.deleteEtcd).0.log, from)
  {
    TurnLeavesFlux(c, k.deleteControlPlane);
    var c1 := DeleteControlPlane(c, k.deleteControlPlane, topo.deployment).0;
    TurnLeavesFlux(c1, k.deleteEtcd);
    var c2 := DeleteEtcd(c1, k.deleteEtcd).0;
    OneWorks(c.log, c1.log, if topo.deployment then DeletedDeployment else DeletedStatefulSet, from) by {
      hide HappenAll;
    }
    OneWorks(c1.log, c2.log, DeletedEtcd, from) by {
      hide HappenAll;
    }
    WorksTwice(c.log, c1.log, c2.log, from);
    hide HappenAll, Works;
  }

  lemma QuiesceWorks(c: Site, k: Calls, from: string)
    ensures Works(c.log, Quiesce(c, k).0.log, from)
  {
    TurnLeavesFlux(c, k.detectEtcd);
    TurnLeavesFlux(At(c, k.detectEtcd), k.detectControlPlane);
    var (c1, f1, topo) := Detect(c, k.detectEtcd, k.detectControlPlane);
    TurnLeavesFlux(c1, k.selector);
    var c2 := At(c1, k.selector);
    TurnLeavesFlux(c2, k.etcdSelector);
    var c3 := if topo.external then At(c2, k.etcdSelector) else c2;
    WorkloadsWork(c3, k, topo, from);
    OneWorks(c.log, c.log, DeletedEtcd, from);
    hide HappenAll, Works, DeleteControlPlane, DeleteEtcd;
  }

  lemma CreateWorks(c: Site, from: string, k: Calls)
    ensures Works(c.log, CreateStage(c, from, k).c.log, from)
  {
    TurnLeavesFlux(c, k.create);
    hide HappenAll, Named;
    OneWorks(c.log, CreateStage(c, from, k).c.log, CreatedRestore(k.name, from), from);
  }

  lemma VolumeWorks(c: Site, topo: Topology, from: string, k: Calls)
    ensures Works(c.log, VolumeStage(c, topo, from, k).c.log, from)
  {
    TurnLeavesFlux(c, k.deleteVolume);
    var c1 := DeleteVolume(c, k.deleteVolume, topo.external).0;
    OneWorks(c.log, c1.log, DeletedVolume(topo.external), from) by {
      hide HappenAll, Volume;
    }
    FluxWorks(c1, k.resumeHelm, k.resumeKustomization, false, from);
    CreateWorks(c1, from, k);
    WorksTwice(c.log, c1.log, Abort(c1, k).c.log, from);
    WorksTwice(c.log, c1.log, CreateStage(c1, from, k).c.log, from);
    hide HappenAll, Works, DeleteVolume, CreateStage, SetFluxSuspend;
  }

  lemma QuiesceStageWorks(c: Site, from: string, k: Calls)
    ensures Works(c.log, QuiesceStage(c, from, k).c.log, from)
  {
    QuiesceWorks(c, k, from);
    var (c1, f, topo) := Quiesce(c, k);
    FluxWorks(c1, k.resumeHelm, k.resumeKustomization, false, from);
    VolumeWorks(c1, topo, from, k);
    WorksTwice(c.log, c1.log, Abort(c1, k).c.log, from);
    WorksTwice(c.log, c1.log, VolumeStage(c1, topo, from, k).c.log, from);
    hide Works, Quiesce, VolumeStage, SetFluxSuspend;
  }

  lemma SuspendStageWorks(c: Site, from: string, k: Calls)
    ensures Works(c.log, SuspendStage(c, from, k).c.log, from)
  {
    FluxWorks(c, k.suspendHelm, k.suspendKustomization, true, from);
    var c1 := SetFluxSuspend(c, k.suspendHelm, k.suspendKustomization, true).0;
    QuiesceStageWorks(c1, from, k);
    WorksTwice(c.log, c1.log, QuiesceStage(c1, from, k).c.log, from);
    hide Works, QuiesceStage, SetFluxSuspend;
  }

  /** The sequence's part of the log: it begins with the backup read Completed, or nothing is
      destroyed or made. */
  ghost predicate Attempted(before: seq<Entry>, after: seq<Entry>, from: string) {
    && Works(before, after, from)
    && (Gentle(before, after) || (|after| > |before| && after[|before|] == ReadBackup(from, "Completed")))
  }

  lemma SequenceAttempts(c: Site, name: string, backup: string, target: string, k: Calls)
    ensures Attempted(c.log, Create(c, name, backup, target, k).c.log, backup)
  {
    TurnLeavesFlux(c, k.backup);
    var (c1, phase) := GetBackupPhase(c, k.backup, backup);
    var read := ReadBackup(backup, if phase.Some? then phase.value else "");
    assert c1.log == (if phase.Some? then c.log + [read] else c.log) by {
      hide HappenAll;
    }
    OneWorks(c.log, c1.log, read, backup);
    OneWorks(c.log, c.log, read, backup);
    SuspendStageWorks(c1, backup, k);
    var d := SuspendStage(c1, backup, k).c;
    WorksTwice(c.log, c1.log, d.log, backup);
    if phase == Some("Completed") {
      assert c1.log[|c.log|] == read;
      assert d.log[|c.log|] == read;
    }
    hide HappenAll, GetBackupPhase, SuspendStage, Attemptable, Works;
  }

  lemma CalledIsSourced(before: seq<Entry>, log: seq<Entry>, ms: seq<Marker>, m: Marker)
    requires Sourced(before, ms) && m in ms && Attempted(before + [Called(m.restoreAsk)], log, m.fromBackup)
    ensures Sourced(log, ms)
  {
    var begun := before + [Called(m.restoreAsk)];
    forall i: nat | i < |log| && Destructive(log[i])
      ensures exists n | n in ms :: SourcedBy(log, n, i)
    {
      if i < |before| {
        assert log[i] == begun[i] == before[i];
        var n :| n in ms && SourcedBy(before, n, i);
        assert before <= log;
        SourcedByStays(before, log, n, i);
      } else {
        assert log[|before|] == begun[|before|];
        assert i > |before| + 1;
        assert WorksWith(log[i], m.fromBackup);
        assert CalledLast(log, |before|, i);
        assert SourcedBy(log, m, i);
      }
    }
  }

  // ---- what one step tells ----

  /** What a step of an instance leaves. */
  ghost predicate Stepped(c: Site, d: Site, next: Stage) {
    Borne(d) && c.log <= d.log && c.markers <= d.markers && Grounded(d, Instance(next, d.resolved))
  }

  /** A part of a pass: nothing destroyed nor made, an honest status. */
  ghost predicate Told(c: Site, s: Step) {
    && Onward(c, s.c) && Remembers(s.c.log, s.c.resolved)
    && (s.end != Dies ==> Honest(s.c.log, s.l.st))
  }

  lemma FewerRemembered(log: seq<Entry>, resolved: set<string>, fewer: set<string>)
    requires Remembers(log, resolved) && fewer <= resolved
    ensures Remembers(log, fewer)
  {
  }

  /** A call whose only entry, if any, destroys and makes nothing. */
  lemma CallIsOnward(c: Site, d: Site, e: Entry)
    requires Aside(c, d) && (d.log == c.log || d.log == c.log + [e]) && !Destructive(e)
    ensures Onward(c, d)
  {
    hide Grown;
  }

  lemma FluxIsOnward(c: Site, helm: Turn, kustomization: Turn)
    ensures Onward(c, SetFluxSuspend(c, helm, kustomization, false).0)
  {
    FluxIsAside(c, helm, kustomization, false);
    TurnLeavesFlux(c, helm);
    var c1 := PatchHelmRelease(c, helm, false).0;
    TurnLeavesFlux(c1, kustomization);
    hide HappenAll, Grown;
  }

  /** What a poll leaves, and what it tells. */
  lemma PollTells(c: Site, name: string, p: Pass)
    requires Remembers(c.log, c.resolved)
    ensures var (d, f, v) := PollRestore(c, name, true, p);
            && Onward(c, d) && Remembers(d.log, d.resolved)
            && (f == Fine ==> PolledRestore(name, v.phase) in d.log
                              && (Ended(v.phase) && !v.resumePending ==> ResumedIn(d.log, name)))
  {
    PhaseIsAside(c, p.getRestore, name);
    PhaseLeavesFlux(c, p.getRestore, name);
    var (c1, phase) := GetRestorePhase(c, p.getRestore, name);
    CallIsOnward(c, c1, PolledRestore(name, if phase.Some? then phase.value else ""));
    RemembersStays(c.log, c1.log, c.resolved);
    FewerRemembered(c1.log, c.resolved, c1.resolved);
    ResumePatches(c1, p.sequence.resumeHelm, p.sequence.resumeKustomization);
    FluxIsOnward(c1, p.sequence.resumeHelm, p.sequence.resumeKustomization);
    var (c2, f2) := SetFluxSuspend(c1, p.sequence.resumeHelm, p.sequence.resumeKustomization, false);
    OnwardTwice(c, c1, c2);
    RemembersStays(c1.log, c2.log, c1.resolved);
    FewerRemembered(c2.log, c1.resolved, c2.resolved);
    if phase.Some? {
      assert c1.log[|c.log|] == PolledRestore(name, phase.value);
      assert c2.log[|c.log|] == PolledRestore(name, phase.value);
      if f2 == Fine && Ended(phase.value) {
        PolledThenPut(c.log, c1.log, c2.log, name, phase.value);
      }
    }
    hide HappenAll, GetRestorePhase, SetFluxSuspend, Onward, ResumedIn, PutBack, Remembers;
    var (d, f, v) := PollRestore(c, name, true, p);
    if d != c1 && d != c2 {
      assert d == c2.(resolved := c2.resolved + {name}) && f2 == Fine;
      OnwardNow(c, c2, d);
      RemembersMore(c2.log, c2.resolved, name);
    }
    if f == Fine && Ended(v.phase) && !v.resumePending && d == c1 {
      assert name in c1.resolved;
      RemembersOne(c1.log, c1.resolved, name);
    }
  }

  lemma OnwardNow(c: Site, d: Site, d': Site)
    requires Onward(c, d) && d'.markers == d.markers && d'.log == d.log
    ensures Onward(c, d')
  {
  }

  lemma RemembersMore(log: seq<Entry>, resolved: set<string>, name: string)
    requires Remembers(log, resolved) && ResumedIn(log, name)
    ensures Remembers(log, resolved + {name})
  {
    hide ResumedIn;
  }

  lemma RemembersOne(log: seq<Entry>, resolved: set<string>, name: string)
    requires Remembers(log, resolved) && name in resolved
    ensures ResumedIn(log, name)
  {
    hide ResumedIn;
  }

  lemma PolledThenPut(a: seq<Entry>, b: seq<Entry>, c: seq<Entry>, name: string, phase: string)
    requires b == a + [PolledRestore(name, phase)] && Ended(phase) && b <= c && PutBack(b, c)
    ensures ResumedIn(c, name)
  {
    assert c[|a|] == b[|a|] && c[..|a|] == a;
    var i, j :| |b| <= i < j < |c| && c[i] == PatchedHelmRelease(false) && c[j] == PatchedKustomization(false);
    assert PutBack(c[..|a|], c);
  }

  lemma FollowedIsHonest(log: seq<Entry>, st: OpsStatus, v: View, now: int)
    requires Honest(log, st) && st.restore.name != "" && PolledRestore(st.restore.name, v.phase) in log
    requires Ended(v.phase) && !v.resumePending ==> ResumedIn(log, st.restore.name)
    ensures Honest(log, Followed(st, v, now).0)
  {
    var r := st.restore.(phase := v.phase, resumePending := v.resumePending, resumeFailed := false,
                         volumeDestroyed := v.volumeDestroyed);
    if !IsTerminalRestorePhase(v.phase) {
      PlainIsHonest(log, WithRestore(st, r), RestoreInProgress, ConditionTrue, InProgress, now);
    } else {
      var first := if r.firstTerminalAt.Some? then r.firstTerminalAt.value else now;
      var r1 := r.(firstTerminalAt := Some(first));
      if v.resumePending {
        PlainIsHonest(log, WithRestore(st, r1.(resumeFailed := true, resumePending := false)),
                      FluxResumePending, ConditionTrue, ResumeGaveUp, now);
        PlainIsHonest(log, WithRestore(st, r1), FluxResumePending, ConditionTrue, ResumePending, now);
      } else {
        ResumedIsHonest(log, WithRestore(st, r1), v, now);
      }
    }
    hide ResumedIn, HonestConds, WithCond;
  }

  lemma ResumedIsHonest(log: seq<Entry>, st: OpsStatus, v: View, now: int)
    requires HonestConds(log, st.conditions) && ResumedIn(log, st.restore.name) && PolledRestore(st.restore.name, v.phase) in log
    ensures var reason := if v.phase == "Completed" then Reason.Completed else Reason.Failed;
            var told := WithCond(WithCond(st, FluxResumePending, ConditionFalse, Resumed, now),
                                 RestoreInProgress, ConditionFalse, reason, now);
            && HonestConds(log, told.conditions) && told.restore == st.restore
            && HonestConds(log, WithCond(told, RestoreNeedsRetry, ConditionTrue, VolumeDestroyed, now).conditions)
            && WithCond(told, RestoreNeedsRetry, ConditionTrue, VolumeDestroyed, now).restore == st.restore
  {
    var reason := if v.phase == "Completed" then Reason.Completed else Reason.Failed;
    assert BearsOut(log, FluxResumePending, ConditionFalse, Resumed);
    assert BearsOut(log, RestoreInProgress, ConditionFalse, reason);
    hide HonestConds, BearsOut, WithCond;
    SetIsHonest(log, st, FluxResumePending, ConditionFalse, Resumed, now);
    var one := WithCond(st, FluxResumePending, ConditionFalse, Resumed, now);
    SetIsHonest(log, one, RestoreInProgress, ConditionFalse, reason, now);
    PlainIsHonest(log, WithCond(one, RestoreInProgress, ConditionFalse, reason, now),
                  RestoreNeedsRetry, ConditionTrue, VolumeDestroyed, now);
  }

  lemma FollowIsTold(c: Site, l: Local, p: Pass)
    requires Remembers(c.log, c.resolved) && Honest(c.log, l.st) && l.st.restore.name != ""
    ensures Told(c, FollowRestore(c, l, p))
  {
    NothingIsOnward(c);
    var name := l.st.restore.name;
    PollTells(c, name, p);
    var (c1, f, v) := PollRestore(c, name, true, p);
    OnwardLogs(c, c1);
    HonestStays(c.log, c1.log, l.st);
    if f == Fine {
      FollowedIsHonest(c1.log, l.st, v, c1.now);
    }
    hide PollRestore, Followed, IsTerminalRestorePhase, Onward, Remembers, ResumedIn, PutBack, Set, Find;
  }

  lemma NothingIsOnward(c: Site)
    ensures Onward(c, c)
  {
    SameAside(c, c, DeletedEtcd);
    CallIsOnward(c, c, DeletedEtcd);
  }

  lemma OnwardLogs(c: Site, d: Site)
    requires Onward(c, d)
    ensures c.log <= d.log && c.markers <= d.markers
  {
  }

  lemma InspectIsOnward(c: Site, p: Pass)
    ensures var (d, f, seen) := InspectInterrupted(c, p);
            && Onward(c, d) && d.resolved <= c.resolved && d.log == c.log
            && (seen.active.Some? && f == Fine ==> !Ended(seen.active.value.phase))
  {
    InspectIsAside(c, p);
    TurnLeavesFlux(c, p.interruptedEtcd);
    var a := At(c, p.interruptedEtcd);
    TurnLeavesFlux(a, p.interruptedControlPlane);
    var c1 := Detect(c, p.interruptedEtcd, p.interruptedControlPlane).0;
    TurnLeavesFlux(c1, p.interruptedVolume);
    var c2 := At(c1, p.interruptedVolume);
    TurnLeavesFlux(c2, p.interruptedList);
    ActiveIsNotEnded(At(c2, p.interruptedList).restores);
    hide HappenAll, Grown, FirstActive;
    var d := InspectInterrupted(c, p).0;
    assert d.log == c.log && d.resolved <= c.resolved;
    CallIsOnward(c, d, DeletedEtcd);
  }

  lemma {:induction false} ActiveIsNotEnded(restores: seq<Restore>)
    ensures FirstActive(restores).Some? ==> !Ended(FirstActive(restores).value.phase)
  {
    if restores == [] {
    } else {
      ActiveIsNotEnded(restores[1..]);
    }
  }

  lemma RecoverIsTold(c: Site, l: Local, p: Pass)
    requires Remembers(c.log, c.resolved) && Honest(c.log, l.st) && l.st.restore.name == "" && l.st.restore.phase == "New"
    ensures Told(c, Recover(c, l, p))
  {
    InspectIsOnward(c, p);
    var (c1, f, seen) := InspectInterrupted(c, p);
    ResumePatches(c1, p.sequence.resumeHelm, p.sequence.resumeKustomization);
    FluxIsOnward(c1, p.sequence.resumeHelm, p.sequence.resumeKustomization);
    var (c2, f2) := SetFluxSuspend(c1, p.sequence.resumeHelm, p.sequence.resumeKustomization, false);
    OnwardTwice(c, c1, c2);
    FewerRemembered(c.log, c.resolved, c1.resolved);
    RemembersStays(c1.log, c2.log, c1.resolved);
    FewerRemembered(c2.log, c1.resolved, c2.resolved);
    HonestStays(c1.log, c2.log, l.st);
    if f2 == Fine {
      PutSomewhere(c1.log, c2.log);
      AbortedIsHonest(c2.log, l.st, c2.now);
    }
    if seen.active.Some? && f == Fine {
      AdoptedIsHonest(c1.log, l.st, seen.active.value, c1.now);
    }
    LeftIsHonest(c1.log, l.st, c1.now);
    PlainIsHonest(c2.log, l.st, RestoreNeedsRetry, ConditionTrue, AbortFailed, c2.now);
    hide InspectInterrupted, SetFluxSuspend, Onward, Remembers, HonestRecord, HonestConds, PutBack, WithCond, WithRestore;
  }

  lemma AdoptedIsHonest(log: seq<Entry>, st: OpsStatus, r: Restore, now: int)
    requires Honest(log, st) && st.restore.phase == "New" && !Ended(r.phase)
    ensures Honest(log, WithCond(WithRestore(st, st.restore.(name := r.name, phase := r.phase)),
                                 RestoreInProgress, ConditionTrue, Adopted, now))
  {
    PlainIsHonest(log, WithRestore(st, st.restore.(name := r.name, phase := r.phase)), RestoreInProgress, ConditionTrue,
                  Adopted, now);
    hide HonestConds, WithCond, ResumedIn;
  }

  lemma LeftIsHonest(log: seq<Entry>, st: OpsStatus, now: int)
    requires Honest(log, st) && st.restore.name == ""
    ensures Honest(log, WithCond(WithCond(WithRestore(st, st.restore.(volumeDestroyed := true, phase := "Failed")),
                                          RestoreInProgress, ConditionFalse, Reason.Interrupted, now),
                                 RestoreNeedsRetry, ConditionTrue, VolumeGoneNoRestore, now))
  {
    var gone := WithRestore(st, st.restore.(volumeDestroyed := true, phase := "Failed"));
    PlainIsHonest(log, gone, RestoreInProgress, ConditionFalse, Reason.Interrupted, now);
    PlainIsHonest(log, WithCond(gone, RestoreInProgress, ConditionFalse, Reason.Interrupted, now),
                  RestoreNeedsRetry, ConditionTrue, VolumeGoneNoRestore, now);
    hide HonestConds, WithCond, ResumedIn;
  }

  lemma AbortIsBorneOut(log: seq<Entry>)
    requires AnyPutBack(log)
    ensures BearsOut(log, RestoreInProgress, ConditionFalse, Aborted)
  {
  }

  lemma AbortedIsHonest(log: seq<Entry>, st: OpsStatus, now: int)
    requires Honest(log, st) && st.restore.name == "" && AnyPutBack(log)
    ensures Honest(log, WithCond(WithCond(WithRestore(st, st.restore.(phase := "Failed")),
                                          RestoreInProgress, ConditionFalse, Aborted, now),
                                 RestoreNeedsRetry, ConditionTrue, InterruptedBeforePointOfNoReturn, now))
  {
    var failed := WithRestore(st, st.restore.(phase := "Failed"));
    AbortIsBorneOut(log);
    hide HonestConds, WithCond, ResumedIn, PutBack, BearsOut;
    SetIsHonest(log, failed, RestoreInProgress, ConditionFalse, Aborted, now);
    PlainIsHonest(log, WithCond(failed, RestoreInProgress, ConditionFalse, Aborted, now),
                  RestoreNeedsRetry, ConditionTrue, InterruptedBeforePointOfNoReturn, now);
  }

  lemma PutSomewhere(a: seq<Entry>, b: seq<Entry>)
    requires PutBack(a, b)
    ensures AnyPutBack(b)
  {
  }

  /** A restore part that reserves nothing. */
  lemma RestoreIsTold(c: Site, name: string, l: Local, p: Pass)
    requires Remembers(c.log, c.resolved) && Honest(c.log, l.st) && !MayReserve(l, name)
    ensures Told(c, ReconcileRestore(c, name, l, p))
  {
    NothingIsOnward(c);
    if WantsRestore(l) {
      PlainIsHonest(c.log, l.st, RestoreRejectedBusy, ConditionTrue, AlreadyRunning, c.now);
      PlainIsHonest(c.log, WithRestore(l.st, l.st.restore.(handled := l.read.restoreAsk)),
                    Accepted, ConditionFalse, TargetOutsideMarker, c.now);
      hide Onward, Remembers, HonestConds, ResumedIn, WithCond, Store, CallSequence, IsTerminalRestorePhase, Reservation;
    } else if l.st.restore.name != "" {
      FollowIsTold(c, l, p);
      hide StartRestore, FollowRestore, Recover, Told;
    } else if l.st.restore.handled != "" && l.st.restore.phase == "New" {
      RecoverIsTold(c, l, p);
      hide StartRestore, FollowRestore, Recover, Told;
    } else {
      hide StartRestore, FollowRestore, Recover, Onward, Remembers, Honest;
    }
  }

  lemma ReservedIsHonest(log: seq<Entry>, m: Marker, st: OpsStatus, now: int)
    requires Honest(log, st)
    ensures Honest(log, Reservation(m, st, now)) && Reservation(m, st, now).restore.name == ""
  {
    var conds := Remove(Remove(st.conditions, RestoreRejectedBusy), RestoreNeedsRetry);
    assert HonestConds(log, conds) by {
      hide Find, Remove, BearsOut;
    }
    PlainIsHonest(log, st.(conditions := conds), RestoreInProgress, ConditionTrue, Requested, now);
    hide HonestConds, ResumedIn, Set, Remove;
  }

  lemma RecordedIsHonest(log: seq<Entry>, st: OpsStatus, r: Result, now: int)
    requires Honest(log, st) && st.restore.name == ""
    ensures Honest(log, Recorded(st, r, now))
  {
    var failed := WithRestore(st, st.restore.(phase := "Failed"));
    var destroyed := WithRestore(st, st.restore.(phase := "Failed", volumeDestroyed := true));
    PlainIsHonest(log, failed, RestoreInProgress, ConditionFalse, StageFailed, now);
    PlainIsHonest(log, destroyed, RestoreInProgress, ConditionFalse, StageFailed, now);
    PlainIsHonest(log, WithCond(failed, RestoreInProgress, ConditionFalse, StageFailed, now),
                  RestoreNeedsRetry, ConditionTrue, StageFailed, now);
    PlainIsHonest(log, WithCond(destroyed, RestoreInProgress, ConditionFalse, StageFailed, now),
                  RestoreNeedsRetry, ConditionTrue, VolumeGone, now);
    hide ResumedIn, HonestConds, WithCond;
  }

  lemma BackupIsTold(c: Site, l: Local, p: Pass)
    requires Remembers(c.log, c.resolved) && Honest(c.log, l.st) && !WantsBackup(l)
    ensures Told(c, ReconcileBackup(c, l, p))
  {
    NothingIsOnward(c);
    BackupPhaseIsAside(c, p.getBackup, l.st.backup.name);
    TurnLeavesFlux(c, p.getBackup);
    var (c1, read) := GetBackupPhase(c, p.getBackup, l.st.backup.name);
    var e := ReadBackup(l.st.backup.name, if read.Some? then read.value else "");
    assert (c1.log == if read.Some? then c.log + [e] else c.log) && c1.resolved <= c.resolved by {
      hide HappenAll;
    }
    CallIsOnward(c, c1, e);
    HonestStays(c.log, c1.log, l.st);
    RemembersStays(c.log, c1.log, c.resolved);
    FewerRemembered(c1.log, c.resolved, c1.resolved);
    if read.Some? {
      assert c1.log[|c.log|] == e;
      assert e in c1.log;
    }
    if read.Some? {
      PolledBackupIsHonest(c1.log, l.st, l.st.backup.name, read.value, c1.now);
    }
    hide GetBackupPhase, Onward, Remembers, Honest, WithCond, BackupSelection.IsTerminalBackupPhase, HappenAll;
  }

  lemma PolledBackupIsHonest(log: seq<Entry>, st: OpsStatus, name: string, phase: string, now: int)
    requires Honest(log, st) && ReadBackup(name, phase) in log
    ensures var st' := st.(backup := st.backup.(phase := phase));
            && Honest(log, st')
            && (phase == "Completed" ==> Honest(log, WithCond(st', BackupCompleted, ConditionTrue, Reason.Completed, now)))
            && Honest(log, WithCond(st', BackupCompleted, ConditionFalse, Reason.Failed, now))
  {
    var st' := st.(backup := st.backup.(phase := phase));
    PlainIsHonest(log, st', BackupCompleted, ConditionFalse, Reason.Failed, now);
    if phase == "Completed" {
      assert BearsOut(log, BackupCompleted, ConditionTrue, Reason.Completed);
      SetIsHonest(log, st', BackupCompleted, ConditionTrue, Reason.Completed, now);
    }
    hide HonestConds, HonestRecord, BearsOut, WithCond;
  }

  lemma TakingIsTold(c: Site, l: Local, p: Pass)
    requires Remembers(c.log, c.resolved) && Honest(c.log, l.st)
    ensures Told(c, TakeBackup(c, l, p))
  {
    var a := At(c, p.trigger);
    TakingIsOne(c, l, p);
    TurnLeavesFlux(c, p.trigger);
    var s := TakeBackup(c, l, p);
    assert s.c.resolved == a.resolved by {
      hide HappenAll, Set, Find;
    }
    CallIsOnward(c, a, DeletedEtcd);
    TriggeredIsOnward(c, a, s.c, l.read.backupAsk);
    HonestStays(c.log, s.c.log, l.st);
    RemembersStays(c.log, s.c.log, c.resolved);
    FewerRemembered(s.c.log, c.resolved, s.c.resolved);
    TakenIsHonest(s.c.log, c, l, p);
    hide TakeBackup, HappenAll, Onward, Remembers, Honest;
  }

  lemma TakenIsHonest(log: seq<Entry>, c: Site, l: Local, p: Pass)
    requires Honest(log, l.st)
    ensures Honest(log, TakeBackup(c, l, p).l.st)
  {
    var c1 := TriggerVeleroBackup(c, p.trigger, l.read.backupAsk, p.backupName).0;
    PlainIsHonest(log, l.st.(backup := l.st.backup.(phase := "Failed")), BackupCompleted, ConditionFalse, TriggerFailed, c1.now);
    PlainIsHonest(log, l.st.(backup := l.st.backup.(name := p.backupName)),
                  BackupCompleted, ConditionUnknown, InProgress, c1.now);
    hide TriggerVeleroBackup, HonestRecord, HonestConds, WithCond;
  }

  lemma TriggeredIsOnward(c: Site, a: Site, d: Site, ask: string)
    requires Onward(c, a) && d.markers == a.markers && (d.log == a.log || d.log == a.log + [TriggeredBackup(ask)])
    ensures Onward(c, d) && c.log <= d.log
  {
    assert Gentle(a.log, d.log);
    GentleTwice(c.log, a.log, d.log);
    hide Gentle;
  }

  // ---- the steps ----

  lemma ToldSteps(c: Site, s: Step, next: Stage, l: Local)
    requires Borne(c) && Told(c, s) && l.read in c.markers
    requires next == Resting || (next.l == s.l && s.l.read == l.read && s.end != Dies && !next.RestoreReserved?)
    ensures Stepped(c, s.c, next)
  {
    OnwardKeeps(c, s.c);
    hide Borne, Onward, Remembers, Honest;
  }

  lemma ForgottenSteps(c: Site, d: Site)
    requires Borne(d) && c.log <= d.log && c.markers <= d.markers
    ensures Stepped(c, Forgotten(d), Resting)
  {
    BorneNow(d, Forgotten(d));
    hide Borne;
  }

  lemma BorneNow(c: Site, d: Site)
    requires Borne(c) && d.markers == c.markers && d.log == c.log
    ensures Borne(d)
  {
    hide Sourced, Honest;
  }

  lemma StoreSteps(c: Site, t: Turn, l: Local, next: Stage)
    requires Borne(c) && Honest(c.log, l.st) && Remembers(c.log, c.resolved) && l.read in c.markers
    requires next == Resting
             || (next.l == Store(c, t, l).1 && (next.RestoreReserved? ==> l.st.restore.name == ""))
    ensures Stepped(c, Store(c, t, l).0, next)
  {
    StoreKeeps(c, t, l);
    var (d, l', f) := Store(c, t, l);
    FewerRemembered(c.log, c.resolved, d.resolved);
    hide Borne, Store, Honest, Remembers;
  }

  lemma CallSteps(c: Site, name: string, l: Local, p: Pass)
    requires Borne(c) && Honest(c.log, l.st) && Remembers(c.log, c.resolved) && l.read in c.markers && l.st.restore.name == ""
    ensures var s := CallSequence(c, name, l, p);
            && Borne(s.c) && c.log <= s.c.log && c.markers <= s.c.markers && Remembers(s.c.log, s.c.resolved)
            && s.l.read == l.read && (s.end != Dies ==> Honest(s.c.log, s.l.st))
  {
    var c0 := Logged(c, Called(l.read.restoreAsk));
    SequenceAttempts(c0, name, l.read.fromBackup, l.read.target, p.sequence);
    SequenceIsAside(c0, name, l.read.fromBackup, l.read.target, p.sequence);
    SequenceRemembers(c0, name, l.read.fromBackup, l.read.target, p.sequence);
    var g := Create(c0, name, l.read.fromBackup, l.read.target, p.sequence);
    CalledIsSourced(c.log, g.c.log, c.markers, l.read);
    assert c.log <= g.c.log;
    GrownBorne(c, g.c);
    HonestStays(c.log, g.c.log, l.st);
    RemembersStays(c.log, g.c.log, c.resolved);
    FewerRemembered(g.c.log, c.resolved, g.c.resolved);
    RecordedIsHonest(g.c.log, l.st, g.r, g.c.now);
    hide Create, Borne, Honest, Remembers, Recorded, Grown, Aside, Sourced;
  }

  lemma GrownBorne(c: Site, d: Site)
    requires Borne(c) && c.log <= d.log && Grown(c, d) && Sourced(d.log, c.markers)
    ensures Borne(d) && c.markers <= d.markers
  {
    GrownIs(c, d);
    SourcedStays(d.log, d.log, c.markers, d.markers);
    forall m | m in d.markers
      ensures Honest(d.log, m.status)
    {
      var n :| n in c.markers && n.status == m.status;
      HonestStays(c.log, d.log, n.status);
    }
    hide Sourced, Honest, Grown;
  }

  /** The sequence puts nothing into the operator's memory. */
  lemma SequenceRemembers(c: Site, name: string, backup: string, target: string, k: Calls)
    ensures Create(c, name, backup, target, k).c.resolved <= c.resolved
  {
    TurnLeavesFlux(c, k.backup);
    var c1 := GetBackupPhase(c, k.backup, backup).0;
    assert c1.resolved <= c.resolved by {
      hide HappenAll;
    }
    SuspendRemembers(c1, backup, k);
    hide GetBackupPhase, SuspendStage, Attemptable, HappenAll;
  }

  lemma FluxRemembers(c: Site, helm: Turn, kustomization: Turn, suspend: bool)
    ensures SetFluxSuspend(c, helm, kustomization, suspend).0.resolved <= c.resolved
  {
    TurnLeavesFlux(c, helm);
    TurnLeavesFlux(PatchHelmRelease(c, helm, suspend).0, kustomization);
    hide HappenAll;
  }

  lemma SuspendRemembers(c: Site, from: string, k: Calls)
    ensures SuspendStage(c, from, k).c.resolved <= c.resolved
  {
    FluxRemembers(c, k.suspendHelm, k.suspendKustomization, true);
    var c1 := SetFluxSuspend(c, k.suspendHelm, k.suspendKustomization, true).0;
    QuiesceRemembers(c1, k);
    var (c2, f, topo) := Quiesce(c1, k);
    FluxRemembers(c2, k.resumeHelm, k.resumeKustomization, false);
    VolumeRemembers(c2, topo, from, k);
    hide SetFluxSuspend, Quiesce, VolumeStage;
  }

  lemma QuiesceRemembers(c: Site, k: Calls)
    ensures Quiesce(c, k).0.resolved <= c.resolved
  {
    TurnLeavesFlux(c, k.detectEtcd);
    TurnLeavesFlux(At(c, k.detectEtcd), k.detectControlPlane);
    var (c1, f1, topo) := Detect(c, k.detectEtcd, k.detectControlPlane);
    TurnLeavesFlux(c1, k.selector);
    var c2 := At(c1, k.selector);
    TurnLeavesFlux(c2, k.etcdSelector);
    var c3 := if topo.external then At(c2, k.etcdSelector) else c2;
    TurnLeavesFlux(c3, k.deleteControlPlane);
    var c4 := DeleteControlPlane(c3, k.deleteControlPlane, topo.deployment).0;
    TurnLeavesFlux(c4, k.deleteEtcd);
    hide HappenAll;
  }

  lemma VolumeRemembers(c: Site, topo: Topology, from: string, k: Calls)
    ensures VolumeStage(c, topo, from, k).c.resolved <= c.resolved
  {
    TurnLeavesFlux(c, k.deleteVolume);
    var c1 := DeleteVolume(c, k.deleteVolume, topo.external).0;
    assert c1.resolved <= c.resolved by {
      hide HappenAll, Volume;
    }
    FluxRemembers(c1, k.resumeHelm, k.resumeKustomization, false);
    TurnLeavesFlux(c1, k.create);
    hide HappenAll, DeleteVolume, SetFluxSuspend, Named;
  }

  lemma AdvanceSteps(c: Site, name: string, stage: Stage)
    requires Borne(c) && Grounded(c, Instance(stage, c.resolved))
    ensures var (d, next) := Advance(c, name, stage); Stepped(c, d, next)
  {
    match stage
    case Resting => hide Borne, Honest, Remembers;
    case Begun(l, p) => BegunSteps(c, name, l, p);
    case RestoreReserved(l, p) => ReservedSteps(c, name, l, p);
    case RestoreOver(l, restoring, p) => OverSteps(c, name, l, restoring, p);
    case BackupReserved(l, restoring, p) => TakingSteps(c, name, l, restoring, p);
    case BackupOver(l, restoring, saving, p) => FinishSteps(c, name, l, restoring, saving, p);
  }

  lemma BegunSteps(c: Site, name: string, l: Local, p: Pass)
    requires Borne(c) && Grounded(c, Instance(Begun(l, p), c.resolved))
    ensures var (d, next) := Advance(c, name, Begun(l, p)); Stepped(c, d, next)
  {
    var (d, next) := Advance(c, name, Begun(l, p));
    if MayReserve(l, name) {
      var l0 := l.(st := Reservation(l.read, l.st, c.now));
      ReservedIsHonest(c.log, l.read, l.st, c.now);
      StoreKeeps(c, p.reserve, l0);
      var (c1, l1, f) := Store(c, p.reserve, l0);
      if f == Dead {
        ForgottenSteps(c, c1);
      } else {
        StoreSteps(c, p.reserve, l0, next);
      }
      hide Store, Borne, Honest, Remembers, Stepped, Reservation, MayReserve;
    } else {
      RestoreIsTold(c, name, l, p);
      RestoreIsAside(c, name, l, p);
      PartSteps(c, ReconcileRestore(c, name, l, p), next, l);
      hide ReconcileRestore, Borne, Honest, Remembers, Stepped, MayReserve, Told;
    }
  }

  lemma RestoreIsAside(c: Site, name: string, l: Local, p: Pass)
    requires !MayReserve(l, name)
    ensures ReconcileRestore(c, name, l, p).l.read == l.read
  {
    hide PollRestore, InspectInterrupted, SetFluxSuspend, Set, Find, IsTerminalRestorePhase, Store, CallSequence;
  }

  /** After a part of a pass. */
  lemma PartSteps(c: Site, s: Step, next: Stage, l: Local)
    requires Borne(c) && Told(c, s) && l.read in c.markers && s.l.read == l.read
    requires s.end != Dies ==> next != Resting && next.l == s.l && !next.RestoreReserved?
    requires s.end == Dies ==> next == Resting
    ensures Stepped(c, if s.end == Dies then Forgotten(s.c) else s.c, next)
  {
    if s.end == Dies {
      OnwardKeeps(c, s.c);
      ForgottenSteps(c, s.c);
    } else {
      ToldSteps(c, s, next, l);
    }
    hide Borne, Told, Stepped;
  }

  lemma ReservedSteps(c: Site, name: string, l: Local, p: Pass)
    requires Borne(c) && Grounded(c, Instance(RestoreReserved(l, p), c.resolved))
    ensures var (d, next) := Advance(c, name, RestoreReserved(l, p)); Stepped(c, d, next)
  {
    CallSteps(c, name, l, p);
    var s := CallSequence(c, name, l, p);
    if s.end == Dies {
      ForgottenSteps(c, s.c);
    }
    hide CallSequence, Borne, Honest, Remembers;
  }

  lemma OverSteps(c: Site, name: string, l: Local, restoring: End, p: Pass)
    requires Borne(c) && Grounded(c, Instance(RestoreOver(l, restoring, p), c.resolved))
    ensures var (d, next) := Advance(c, name, RestoreOver(l, restoring, p)); Stepped(c, d, next)
  {
    var (d, next) := Advance(c, name, RestoreOver(l, restoring, p));
    if WantsBackup(l) {
      var l0 := l.(st := l.st.(backup := BackupStatus(l.read.backupAsk, "", "New")));
      assert Honest(c.log, l0.st);
      StoreKeeps(c, p.consume, l0);
      var (c1, l1, f) := Store(c, p.consume, l0);
      if f == Dead {
        ForgottenSteps(c, c1);
      } else {
        StoreSteps(c, p.consume, l0, next);
      }
      hide Store, Borne, Honest, Remembers, Stepped;
    } else {
      BackupIsTold(c, l, p);
      BackupIsAside(c, l, p);
      PartSteps(c, ReconcileBackup(c, l, p), next, l);
      hide ReconcileBackup, Borne, Honest, Remembers, Stepped, Told;
    }
  }

  lemma TakingSteps(c: Site, name: string, l: Local, restoring: End, p: Pass)
    requires Borne(c) && Grounded(c, Instance(BackupReserved(l, restoring, p), c.resolved))
    ensures var (d, next) := Advance(c, name, BackupReserved(l, restoring, p)); Stepped(c, d, next)
  {
    TakingIsTold(c, l, p);
    TakingIsOne(c, l, p);
    var (d, next) := Advance(c, name, BackupReserved(l, restoring, p));
    PartSteps(c, TakeBackup(c, l, p), next, l);
    hide TakeBackup, Borne, Honest, Remembers, Stepped, Told;
  }

  lemma FinishSteps(c: Site, name: string, l: Local, restoring: End, saving: End, p: Pass)
    requires Borne(c) && Grounded(c, Instance(BackupOver(l, restoring, saving, p), c.resolved))
    ensures var (d, next) := Advance(c, name, BackupOver(l, restoring, saving, p)); Stepped(c, d, next)
  {
    StoreKeeps(c, p.store, l);
    StoreSteps(c, p.store, l, Resting);
    ForgottenSteps(c, Store(c, p.store, l).0);
    hide Store, Borne, Honest, Remembers, Stepped;
  }

  // ---- the interleavings ----

  lemma GroundedStays(c: Site, d: Site, x: Instance)
    requires Grounded(c, x) && c.log <= d.log && c.markers <= d.markers
    ensures Grounded(d, x)
  {
    RemembersStays(c.log, d.log, x.resolved);
    if x.stage != Resting {
      HonestStays(c.log, d.log, x.stage.l.st);
    }
    hide Honest, Remembers;
  }

  lemma SteppedKeeps(s: System, i: nat, c: Site, d: Site, next: Stage)
    requires Inv(s) && c.log == s.c.log && c.markers == s.c.markers && Stepped(c, d, next)
    ensures Inv(System(d, s.instances[i := Instance(next, d.resolved)]))
  {
    forall j | j in s.instances
      ensures Grounded(d, s.instances[j])
    {
      GroundedStays(s.c, d, s.instances[j]);
    }
    hide Grounded, Borne;
  }

  lemma DoKeeps(s: System, name: string, a: Action)
    requires Inv(s)
    ensures Inv(Do(s, name, a))
  {
    var x := InstanceAt(s, a.i);
    var mine := s.c.(resolved := x.resolved);
    BorneNow(s.c, mine);
    assert Grounded(mine, x);
    match a
    case Start(i, p) =>
      if x.stage == Resting {
        BeginSteps(mine, p);
        var (c1, stage) := Begin(mine, p);
        hide Begin, Borne, Grounded, Stepped;
        SteppedKeeps(s, i, mine, c1, stage);
      }
    case Move(i) =>
      AdvanceSteps(mine, name, x.stage);
      var (c1, stage) := Advance(mine, name, x.stage);
      hide Advance, Borne, Grounded, Stepped;
      SteppedKeeps(s, i, mine, c1, stage);
    case Stop(i) => hide Borne, Honest;
  }

  lemma BeginSteps(c: Site, p: Pass)
    requires Borne(c) && Remembers(c.log, c.resolved)
    ensures var (d, stage) := Begin(c, p); Stepped(c, d, stage)
  {
    EventsAreAside(c, p.idle);
    EventsLeaveFlux(c, p.idle);
    var d := HappenAll(c, p.idle);
    CallIsOnward(c, d, DeletedEtcd);
    OnwardKeeps(c, d);
    FewerRemembered(c.log, c.resolved, d.resolved);
    hide HappenAll, Onward, Sourced, Honest, Remembers;
    if d.markers != [] {
      var v := Version(d, p);
      assert d.markers[v] in d.markers;
    }
  }

  lemma {:induction false} DoAllKeeps(s: System, name: string, actions: seq<Action>)
    requires Inv(s)
    ensures Inv(DoAll(s, name, actions))
  {
    hide Inv, Do;
    if actions == [] {
    } else {
      DoAllKeeps(s, name, actions[..|actions| - 1]);
      DoKeeps(DoAll(s, name, actions[..|actions| - 1]), name, actions[|actions| - 1]);
    }
  }

  /** Nothing done and nothing told yet. */
  predicate Unused(c: Site) {
    && c.log == []
    && forall m | m in c.markers :: m.status.restore.name == "" && m.status.restore.phase == "" && m.status.conditions == []
  }

  lemma UnusedIsBorne(c: Site)
    requires Unused(c)
    ensures Borne(c)
  {
    hide ResumedIn, PutBack;
  }

  /** In every interleaving, however stale the copies, whatever is refused or lost and wherever
      an instance is killed: each volume deleted and each restore made comes after the sequence
      was last called, for a request some version of the marker carries, and after the backup
      that version names was read Completed for it, from which the restore is made. And what the
      stored statuses say of restores, resumes and backups is borne out by the log. */
  lemma DoneAndToldForARequest(c: Site, name: string, actions: seq<Action>)
    requires Unused(c)
    ensures var r := DoAll(System(c, map[]), name, actions).c;
            && (forall i: nat | i < |r.log| && (r.log[i].DeletedVolume? || r.log[i].CreatedRestore?) ::
                  exists m | m in r.markers :: SourcedBy(r.log, m, i))
            && (forall m | m in r.markers :: Honest(r.log, m.status))
  {
    UnusedIsBorne(c);
    DoAllKeeps(System(c, map[]), name, actions);
    hide DoAll, SourcedBy, Honest;
  }

  /** In particular in every run of passes. */
  lemma RunIsForARequest(c: Site, name: string, ps: seq<Pass>)
    requires Unused(c) && c.resolved == {}
    ensures var r := Run(c, name, ps);
            && (forall i: nat | i < |r.log| && (r.log[i].DeletedVolume? || r.log[i].CreatedRestore?) ::
                  exists m | m in r.markers :: SourcedBy(r.log, m, i))
            && (forall m | m in r.markers :: Honest(r.log, m.status))
  {
    UnusedIsBorne(c);
    var actions := RunIsSteps(c, name, ps);
    var start := System(c, map[0 := Instance(Resting, c.resolved)]);
    assert Inv(start) by {
      hide Borne, Run, DoAll;
    }
    hide Inv, Run, DoAll;
    DoAllKeeps(start, name, actions);
    InvTells(DoAll(start, name, actions));
  }

  lemma InvTells(s: System)
    requires Inv(s)
    ensures forall i: nat | i < |s.c.log| && (s.c.log[i].DeletedVolume? || s.c.log[i].CreatedRestore?) ::
              exists m | m in s.c.markers :: SourcedBy(s.c.log, m, i)
    ensures forall m | m in s.c.markers :: Honest(s.c.log, m.status)
  {
    hide SourcedBy, Honest;
  }
}
