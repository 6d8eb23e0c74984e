/**
 One restore at a time: with one controller, and no status write lost after a restore was
 created, an active restore is the one the marker records, as not ended.
 */
module RestoreExclusion {
  import opened Wrappers
  import opened Turns
  import BackupSelection
  import opened Conditions
  import opened RestoreWorld
  import opened RestoreSequence
  import opened RestoreController
  import opened RestoreAside
  import RestoreSafety

  ghost predicate Distinct(rs: seq<Restore>) {
    && (forall i | 0 <= i < |rs| :: rs[i].name != "")
    && (forall i, j | 0 <= i < j < |rs| :: rs[i].name != rs[j].name)
  }

  /** Every active restore is the recorded one, recorded as not ended. */
  ghost predicate Records(r: RestoreStatus, rs: seq<Restore>) {
    forall i | 0 <= i < |rs| && IsActive(rs[i]) :: rs[i].name == r.name && !IsTerminalRestorePhase(r.phase)
  }

  /** No restore is active. */
  ghost predicate Idle(rs: seq<Restore>) {
    forall i | 0 <= i < |rs| :: !IsActive(rs[i])
  }

  ghost predicate Tracked(c: Site) {
    c.markers != [] && Distinct(c.restores) && Records(Current(c).status.restore, c.restores)
  }

  /** What a pass would store, if its version is still the last. */
  ghost predicate Pending(c: Site, l: Local) {
    l.version + 1 == |c.markers| ==> Records(l.st.restore, c.restores)
  }

  /** No restore was created, no ended one came back, no status was stored. */
  ghost predicate Calm(c: Site, d: Site) {
    && |d.restores| == |c.restores|
    && (forall i | 0 <= i < |c.restores| :: d.restores[i].name == c.restores[i].name
                                             && (IsActive(d.restores[i]) ==> IsActive(c.restores[i])))
    && Grown(c, d)
  }

  lemma CalmSelf(c: Site)
    ensures Calm(c, c)
  {
  }

  lemma CalmTwice(a: Site, b: Site, c: Site)
    requires Calm(a, b) && Calm(b, c)
    ensures Calm(a, c)
  {
    GrownTwice(a, b, c);
    hide IsActive, Grown;
  }

  lemma CalmKeeps(c: Site, d: Site, l: Local)
    requires Calm(c, d)
    ensures Tracked(c) ==> Tracked(d)
    ensures Pending(c, l) && l.version < |c.markers| ==> Pending(d, l)
    ensures Distinct(c.restores) ==> Distinct(d.restores)
  {
    hide IsActive, IsTerminalRestorePhase;
  }

  // ---- what is calm ----

  /** Same restores and markers: whatever else a call does is calm. */
  lemma Untouched(c: Site, d: Site)
    requires d.restores == c.restores && d.markers == c.markers
    ensures Calm(c, d)
  {
    assert d.markers[..|c.markers|] == c.markers;
  }

  lemma MoveIsCalm(c: Site, i: nat, phase: string)
    ensures Calm(c, Happen(c, RestoreReaches(i, phase)))
  {
    CalmSelf(c);
    hide IsTerminalRestorePhase;
    var d := Happen(c, RestoreReaches(i, phase));
    assert d.markers[..|c.markers|] == c.markers;
  }

  lemma AskIsCalm(c: Site, m: Marker)
    requires c.markers != [] && m.status == Current(c).status
    ensures Calm(c, c.(markers := c.markers + [m]))
  {
    hide IsActive;
    var d := c.(markers := c.markers + [m]);
    assert d.markers[..|c.markers|] == c.markers;
  }

  lemma EventIsCalm(c: Site, e: Event)
    ensures Calm(c, Happen(c, e))
  {
    CalmSelf(c);
    match e
    case VeleroRebuilds(x, a, b, etcd) =>
      RebuiltSame(c, x, a, b, etcd);
      hide *;
      Untouched(c, Rebuilt(c, x, a, b, etcd));
      EventIs(c, e);
    case FluxRebuilds(x, a, b, etcd) =>
      RebuiltSame(c, x, a, b, etcd);
      hide *;
      Untouched(c, Rebuilt(c, x, a, b, etcd));
      EventIs(c, e);
    case VolumeReleased(x) =>
      RebuiltSame(c, x, false, false, false);
      hide *;
      Untouched(c, WithVolume(c, x, Gone));
      EventIs(c, e);
    case RestoreReaches(i, phase) => MoveIsCalm(c, i, phase);
    case RestoreAsked(ask, from, target) =>
      if c.markers != [] {
        AskIsCalm(c, Current(c).(restoreAsk := ask, fromBackup := from, target := target));
      }
    case BackupAsked(ask) =>
      if c.markers != [] {
        AskIsCalm(c, Current(c).(backupAsk := ask));
      }
    case Tick(_) => Untouched(c, Happen(c, e));
    case BackupReaches(_, _) => Untouched(c, Happen(c, e));
    case Restarted => Untouched(c, Happen(c, e));
  }

  lemma {:induction false} EventsAreCalm(c: Site, es: seq<Event>)
    ensures Calm(c, HappenAll(c, es))
  {
    CalmSelf(c);
    hide Happen, Calm;
    if es == [] {
    } else {
      EventsAreCalm(c, es[..|es| - 1]);
      var d := HappenAll(c, es[..|es| - 1]);
      EventIsCalm(d, es[|es| - 1]);
      CalmTwice(c, d, Happen(d, es[|es| - 1]));
    }
  }

  /** A call that touches neither restores nor markers. */
  lemma CallIsCalm(c: Site, t: Turn, d: Site)
    requires d.restores == At(c, t).restores && d.markers == At(c, t).markers
    ensures Calm(c, d)
  {
    EventsAreCalm(c, t.before);
    hide HappenAll, Calm;
    Untouched(At(c, t), d);
    CalmTwice(c, At(c, t), d);
  }

  lemma FluxIsCalm(c: Site, helm: Turn, kustomization: Turn, suspend: bool)
    ensures Calm(c, SetFluxSuspend(c, helm, kustomization, suspend).0)
  {
    hide HappenAll, Calm;
    var (c1, f) := PatchHelmRelease(c, helm, suspend);
    CallIsCalm(c, helm, c1);
    var c2 := PatchKustomization(c1, kustomization, suspend).0;
    CallIsCalm(c1, kustomization, c2);
    CalmTwice(c, c1, c2);
  }

  lemma DetectIsCalm(c: Site, etcd: Turn, controlPlane: Turn)
    ensures Calm(c, Detect(c, etcd, controlPlane).0)
  {
    hide HappenAll, Calm;
    var c1 := At(c, etcd);
    CallIsCalm(c, etcd, c1);
    CallIsCalm(c1, controlPlane, At(c1, controlPlane));
    CalmTwice(c, c1, At(c1, controlPlane));
  }

  lemma QuiesceIsCalm(c: Site, k: Calls)
    ensures Calm(c, Quiesce(c, k).0)
  {
    DetectIsCalm(c, k.detectEtcd, k.detectControlPlane);
    hide HappenAll, Calm, Detect;
    var (c1, f1, topo) := Detect(c, k.detectEtcd, k.detectControlPlane);
    var c2 := At(c1, k.selector);
    CallIsCalm(c1, k.selector, c2);
    CalmTwice(c, c1, c2);
    var c3 := if topo.external then At(c2, k.etcdSelector) else c2;
    CallIsCalm(c2, k.etcdSelector, At(c2, k.etcdSelector));
    CalmSelf(c2);
    CalmTwice(c, c2, c3);
    var c4 := DeleteControlPlane(c3, k.deleteControlPlane, topo.deployment).0;
    CallIsCalm(c3, k.deleteControlPlane, c4);
    CalmTwice(c, c3, c4);
    var c5 := DeleteEtcd(c4, k.deleteEtcd).0;
    CallIsCalm(c4, k.deleteEtcd, c5);
    CalmTwice(c, c4, c5);
  }

  // ---- the sequence ----

  /** `d` is `m` with one more restore, under a name not taken. */
  ghost predicate MadeFrom(m: Site, d: Site, name: string) {
    Named(m.restores, name) == None && d.restores == m.restores + [Restore(name, "")] && d.markers == m.markers
  }

  /** The sequence creates one restore exactly when it says so. */
  ghost predicate Told(c: Site, g: Go, name: string) {
    if g.r.Made? then g.r.name == name && exists m :: Calm(c, m) && MadeFrom(m, g.c, name)
    else Calm(c, g.c)
  }

  lemma ToldLater(a: Site, c: Site, g: Go, name: string)
    requires Calm(a, c) && Told(c, g, name)
    ensures Told(a, g, name)
  {
    hide Calm, MadeFrom;
    if g.r.Made? {
      var m :| Calm(c, m) && MadeFrom(m, g.c, name);
      CalmTwice(a, c, m);
    } else {
      CalmTwice(a, c, g.c);
    }
  }

  lemma AbortTold(c: Site, k: Calls)
    ensures Told(c, Abort(c, k), k.name)
  {
    FluxIsCalm(c, k.resumeHelm, k.resumeKustomization, false);
    hide SetFluxSuspend, Calm;
  }

  lemma CreateTold(c: Site, from: string, k: Calls)
    requires k.create.fate != Lost
    ensures Told(c, CreateStage(c, from, k), k.name)
  {
    EventsAreCalm(c, k.create.before);
    hide HappenAll, Calm, Named;
    var m := At(c, k.create);
    if k.create.fate == Served && Named(m.restores, k.name) == None {
      assert MadeFrom(m, CreateStage(c, from, k).c, k.name);
    }
  }

  lemma VolumeTold(c: Site, topo: Topology, from: string, k: Calls)
    requires k.create.fate != Lost
    ensures Told(c, VolumeStage(c, topo, from, k), k.name)
  {
    hide HappenAll, Abort, CreateStage, Volume;
    var (c1, v) := DeleteVolume(c, k.deleteVolume, topo.external);
    CallIsCalm(c, k.deleteVolume, c1);
    if v == VolumeKept {
      AbortTold(c1, k);
      ToldLater(c, c1, Abort(c1, k), k.name);
    } else if v != VolumeDead {
      CreateTold(c1, from, k);
      ToldLater(c, c1, CreateStage(c1, from, k), k.name);
    }
  }

  lemma QuiesceTold(c: Site, from: string, k: Calls)
    requires k.create.fate != Lost
    ensures Told(c, QuiesceStage(c, from, k), k.name)
  {
    QuiesceIsCalm(c, k);
    hide Quiesce, Abort, VolumeStage, Calm, MadeFrom;
    var (c1, f, topo) := Quiesce(c, k);
    if f == Fine {
      VolumeTold(c1, topo, from, k);
      ToldLater(c, c1, VolumeStage(c1, topo, from, k), k.name);
    } else if f == Fault {
      AbortTold(c1, k);
      ToldLater(c, c1, Abort(c1, k), k.name);
    }
  }

  lemma SuspendTold(c: Site, from: string, k: Calls)
    requires k.create.fate != Lost
    ensures Told(c, SuspendStage(c, from, k), k.name)
  {
    FluxIsCalm(c, k.suspendHelm, k.suspendKustomization, true);
    hide Calm, MadeFrom, SetFluxSuspend, QuiesceStage;
    var (c1, f) := SetFluxSuspend(c, k.suspendHelm, k.suspendKustomization, true);
    if f == Fine {
      QuiesceTold(c1, from, k);
      ToldLater(c, c1, QuiesceStage(c1, from, k), k.name);
    }
  }

  lemma BackupPhaseIsCalm(c: Site, t: Turn, backup: string)
    ensures Calm(c, GetBackupPhase(c, t, backup).0)
  {
    hide HappenAll, Calm;
    CallIsCalm(c, t, GetBackupPhase(c, t, backup).0);
  }

  lemma SequenceTold(c: Site, name: string, backup: string, target: string, k: Calls)
    requires k.create.fate != Lost
    ensures Told(c, Create(c, name, backup, target, k), k.name)
  {
    CalmSelf(c);
    BackupPhaseIsCalm(c, k.backup, backup);
    hide Calm, MadeFrom, GetBackupPhase, SuspendStage, Attemptable;
    var c1 := GetBackupPhase(c, k.backup, backup).0;
    SuspendTold(c1, backup, k);
    ToldLater(c, c1, SuspendStage(c1, backup, k), k.name);
  }

  // ---- storing ----

  /** A status update keeps the record, when what is pending may be stored. */
  lemma StoreTracks(c: Site, t: Turn, l: Local)
    requires Tracked(c) && Pending(c, l) && l.version < |c.markers|
    ensures var (d, l', f) := Store(c, t, l);
            && Tracked(d) && Pending(d, l') && l'.version < |d.markers| && d.restores == At(c, t).restores
            && l'.st == l.st && l'.read == l.read
  {
    EventsAreCalm(c, t.before);
    CalmKeeps(c, At(c, t), l);
    hide HappenAll, Calm, Distinct, Records;
  }

  /** Just after a restore was created: recorded in memory, not stored yet. */
  ghost predicate Unstored(c: Site, l: Local) {
    c.markers != [] && Distinct(c.restores) && Pending(c, l) && l.version < |c.markers|
  }

  lemma StoreUnstored(c: Site, t: Turn, l: Local)
    requires Unstored(c, l)
    ensures var (d, l', f) := Store(c, t, l);
            && Unstored(d, l') && l'.st == l.st && l'.read == l.read
            && (f == Fine ==> Tracked(d))
  {
    EventsAreCalm(c, t.before);
    CalmKeeps(c, At(c, t), l);
    hide HappenAll, Calm, Distinct, Records;
  }

  // ---- the restore part of a pass ----

  predicate AsRead(c: Site, l: Local) {
    l.version < |c.markers| && c.markers[l.version] == l.read && l.st == l.read.status
  }

  /** Nothing runs when the marker records nothing running. */
  lemma NoneRuns(c: Site)
    requires Tracked(c) && (Current(c).status.restore.name == "" || IsTerminalRestorePhase(Current(c).status.restore.phase))
    ensures Idle(c.restores) && forall r: RestoreStatus :: Records(r, c.restores)
    ensures FirstActive(c.restores) == None
  {
    RestoreSafety.NoneActive(c.restores);
    hide FirstActive, IsActive, IsTerminalRestorePhase;
  }

  /** What the restore part leaves: tracked, or created and not stored yet. */
  ghost predicate Left(c: Site, s: Step) {
    && Unstored(s.c, s.l)
    && (|s.c.restores| == |c.restores| ==> Tracked(s.c))
    && |s.c.restores| >= |c.restores|
    && (s.end == Dies ==> |s.c.restores| == |c.restores|)
  }

  lemma MadePending(c: Site, m: Site, g: Go, l: Local)
    requires Tracked(c) && Idle(c.restores) && Calm(c, m) && g.r.Made? && g.r.name != ""
    requires MadeFrom(m, g.c, g.r.name) && l.version < |c.markers|
    ensures var l' := l.(st := Recorded(l.st, g.r, g.c.now)); Unstored(g.c, l')
    ensures |g.c.restores| == |c.restores| + 1
  {
    CalmKeeps(c, m, l);
    RestoreSafety.Unnamed(m.restores, g.r.name);
    hide Named, Tracked;
    var d := g.c;
    assert forall i | 0 <= i < |m.restores| :: d.restores[i] == m.restores[i];
    assert !IsTerminalRestorePhase("New");
  }

  lemma StartTracks(c: Site, name: string, l: Local, p: Pass)
    requires Tracked(c) && AsRead(c, l) && p.sequence.create.fate != Lost && p.sequence.name != ""
    ensures Left(c, StartRestore(c, name, l, p))
  {
    AsReadIsPending(c, l);
    hide HappenAll, Calm, Distinct, Records, Set, Remove, Create, Store, IsTerminalRestorePhase, Recorded;
    if !Busy(l.st.restore) && !(l.read.target != "" && l.read.target != name) {
      var l0 := l.(st := Reservation(l.read, l.st, c.now));
      if l.version + 1 == |c.markers| {
        NoneRuns(c);
      }
      assert Pending(c, l0);
      StoreTracks(c, p.reserve, l0);
      StoreCounts(c, p.reserve, l0);
      var (c1, l1, f) := Store(c, p.reserve, l0);
      if f == Fine {
        StoredIsCurrent(c, p.reserve, l0);
        NoneRuns(c1);
        var c2 := Logged(c1, Called(l.read.restoreAsk));
        Untouched(c1, c2);
        SequenceTold(c2, name, l.read.fromBackup, l.read.target, p.sequence);
        var g := Create(c2, name, l.read.fromBackup, l.read.target, p.sequence);
        ToldLater(c1, c2, g, p.sequence.name);
        AfterCreate(c1, g, l1, p.sequence.name);
      }
    }
  }

  lemma AsReadIsPending(c: Site, l: Local)
    requires Tracked(c) && AsRead(c, l)
    ensures Pending(c, l)
  {
    hide Distinct, Records;
  }

  lemma StoreCounts(c: Site, t: Turn, l: Local)
    ensures |Store(c, t, l).0.restores| == |c.restores|
  {
    EventsAreCalm(c, t.before);
    hide HappenAll;
  }

  lemma StoredIsCurrent(c: Site, t: Turn, l: Local)
    requires Store(c, t, l).2 == Fine
    ensures var (d, l', f) := Store(c, t, l);
            d.markers != [] && l'.version == |d.markers| - 1 && Current(d).status == l.st
  {
    hide HappenAll;
  }

  lemma IdleRecords(rs: seq<Restore>, r: RestoreStatus)
    requires Idle(rs)
    ensures Records(r, rs)
  {
    hide IsActive;
  }

  lemma AfterCreate(c: Site, g: Go, l: Local, name: string)
    requires Tracked(c) && Idle(c.restores) && Told(c, g, name) && name != ""
    requires l.version < |c.markers|
    ensures g.r == Died ==> Tracked(g.c) && |g.c.restores| == |c.restores| && Unstored(g.c, l)
    ensures g.r != Died ==> Unstored(g.c, l.(st := Recorded(l.st, g.r, g.c.now)))
                            && |g.c.restores| == |c.restores| + (if g.r.Made? then 1 else 0)
                            && (!g.r.Made? ==> Tracked(g.c))
  {
    hide MadeFrom, Distinct, Records, Recorded;
    if g.r.Made? {
      var m :| Calm(c, m) && MadeFrom(m, g.c, name);
      MadePending(c, m, g, l);
    } else {
      var l' := l.(st := Recorded(l.st, g.r, g.c.now));
      IdleRecords(c.restores, l.st.restore);
      IdleRecords(c.restores, l'.st.restore);
      CalmKeeps(c, g.c, l);
      CalmKeeps(c, g.c, l');
    }
  }

  lemma PollIsCalm(c: Site, name: string, inPlace: bool, p: Pass)
    ensures Calm(c, PollRestore(c, name, inPlace, p).0)
  {
    var c1 := GetRestorePhase(c, p.getRestore, name).0;
    CallIsCalm(c, p.getRestore, c1);
    hide HappenAll, SetFluxSuspend, Calm, Named;
    FluxIsCalm(c1, p.sequence.resumeHelm, p.sequence.resumeKustomization, false);
    var c2 := SetFluxSuspend(c1, p.sequence.resumeHelm, p.sequence.resumeKustomization, false).0;
    CalmTwice(c, c1, c2);
    Untouched(c2, c2.(resolved := c2.resolved + {name}));
    CalmTwice(c, c2, c2.(resolved := c2.resolved + {name}));
  }

  /** A polled phase is terminal only when no restore of that name is active. */
  lemma PollTells(c: Site, name: string, inPlace: bool, p: Pass)
    requires Distinct(c.restores)
    ensures var (d, f, v) := PollRestore(c, name, inPlace, p);
            && Calm(c, d)
            && (f == Fine ==> forall i | 0 <= i < |d.restores| && IsActive(d.restores[i]) && d.restores[i].name == name ::
                                !IsTerminalRestorePhase(v.phase))
  {
    var c1 := GetRestorePhase(c, p.getRestore, name).0;
    CallIsCalm(c, p.getRestore, c1);
    hide HappenAll, SetFluxSuspend;
    FluxIsCalm(c1, p.sequence.resumeHelm, p.sequence.resumeKustomization, false);
    var c2 := SetFluxSuspend(c1, p.sequence.resumeHelm, p.sequence.resumeKustomization, false).0;
    CalmTwice(c, c1, c2);
    Untouched(c2, c2.(resolved := c2.resolved + {name}));
    CalmTwice(c, c2, c2.(resolved := c2.resolved + {name}));
    CalmTwice(c1, c2, c2.(resolved := c2.resolved + {name}));
    NamedTells(c, c1, name);
  }

  lemma NamedTells(c: Site, d: Site, name: string)
    requires Distinct(c.restores) && Calm(c, d)
    ensures Named(d.restores, name).Some? && !IsActive(Named(d.restores, name).value) ==>
              forall i | 0 <= i < |d.restores| && d.restores[i].name == name :: !IsActive(d.restores[i])
  {
    RestoreSafety.Unnamed(d.restores, name);
    hide Named, IsActive;
    if Named(d.restores, name).Some? {
      var j :| 0 <= j < |d.restores| && d.restores[j] == Named(d.restores, name).value;
      forall i | 0 <= i < |d.restores| && d.restores[i].name == name
        ensures i == j
      {
        assert c.restores[i].name == c.restores[j].name;
      }
    }
  }

  lemma FollowTracks(c: Site, l: Local, p: Pass)
    requires Tracked(c) && AsRead(c, l)
    ensures Left(c, FollowRestore(c, l, p))
  {
    AsReadIsPending(c, l);
    PollTells(c, l.st.restore.name, l.st.restore.inPlace, p);
    hide HappenAll, PollRestore, IsTerminalRestorePhase, Distinct, Set, Find;
    var (c1, f, v) := PollRestore(c, l.st.restore.name, l.st.restore.inPlace, p);
    CalmKeeps(c, c1, l);
    if f == Fine {
      FollowedTells(l.st, v, c1.now);
      FollowedPending(c1, l, v);
    }
  }

  lemma FollowedTells(st: OpsStatus, v: View, now: int)
    ensures var r := Followed(st, v, now).0.restore; r.name == st.restore.name && r.phase == v.phase
  {
    hide Set, Find, IsTerminalRestorePhase;
  }

  lemma FollowedPending(c: Site, l: Local, v: View)
    requires Pending(c, l)
    requires forall i | 0 <= i < |c.restores| && IsActive(c.restores[i]) && c.restores[i].name == l.st.restore.name ::
               !IsTerminalRestorePhase(v.phase)
    ensures Pending(c, l.(st := Followed(l.st, v, c.now).0))
  {
    FollowedTells(l.st, v, c.now);
    hide Followed, IsActive, IsTerminalRestorePhase;
  }

  lemma ReadVolumeIsCalm(c: Site, etcd: Turn, controlPlane: Turn, pvc: Turn)
    ensures Calm(c, ReadVolume(c, etcd, controlPlane, pvc).0)
  {
    DetectIsCalm(c, etcd, controlPlane);
    hide HappenAll, Calm, Detect;
    var c1 := Detect(c, etcd, controlPlane).0;
    CallIsCalm(c1, pvc, At(c1, pvc));
    CalmTwice(c, c1, At(c1, pvc));
  }

  lemma InspectIsCalm(c: Site, p: Pass)
    ensures var (d, f, seen) := InspectInterrupted(c, p);
            Calm(c, d) && (f == Fine ==> seen.active == FirstActive(d.restores))
  {
    ReadVolumeIsCalm(c, p.interruptedEtcd, p.interruptedControlPlane, p.interruptedVolume);
    hide HappenAll, Calm, ReadVolume, FirstActive;
    var c1 := ReadVolume(c, p.interruptedEtcd, p.interruptedControlPlane, p.interruptedVolume).0;
    CallIsCalm(c1, p.interruptedList, At(c1, p.interruptedList));
    CalmTwice(c, c1, At(c1, p.interruptedList));
  }

  /** A pass that recovers from the current version finds nothing running. */
  lemma RecoveredPending(c: Site, d: Site, l: Local)
    requires Tracked(c) && AsRead(c, l) && Calm(c, d) && l.st.restore.name == "" && l.version + 1 == |d.markers|
    ensures FirstActive(d.restores) == None && forall r: RestoreStatus :: Records(r, d.restores)
  {
    CalmKeeps(c, d, l);
    NoneRuns(d);
    hide Distinct, Records, FirstActive;
  }

  lemma RecoverTracks(c: Site, l: Local, p: Pass)
    requires Tracked(c) && AsRead(c, l) && l.st.restore.name == ""
    ensures Left(c, Recover(c, l, p))
  {
    InspectIsCalm(c, p);
    hide HappenAll, InspectInterrupted, SetFluxSuspend, FirstActive, Set, Find, Distinct, Records, AsRead, Calm;
    var (c1, f, seen) := InspectInterrupted(c, p);
    CalmCounts(c, c1, l);
    if l.version + 1 == |c1.markers| {
      RecoveredPending(c, c1, l);
    }
    FluxIsCalm(c1, p.sequence.resumeHelm, p.sequence.resumeKustomization, false);
    var c2 := SetFluxSuspend(c1, p.sequence.resumeHelm, p.sequence.resumeKustomization, false).0;
    CalmTwice(c, c1, c2);
    CalmCounts(c, c2, l);
    if l.version + 1 == |c2.markers| {
      RecoveredPending(c, c2, l);
    }
  }

  lemma CalmCounts(c: Site, d: Site, l: Local)
    requires Tracked(c) && AsRead(c, l) && Calm(c, d)
    ensures Tracked(d) && |d.restores| == |c.restores| && l.version < |d.markers| && Pending(d, l)
  {
    AsReadIsPending(c, l);
    CalmKeeps(c, d, l);
    hide Distinct, Records;
  }

  lemma RestoreTracks(c: Site, name: string, l: Local, p: Pass)
    requires Tracked(c) && AsRead(c, l) && p.sequence.create.fate != Lost && p.sequence.name != ""
    ensures Left(c, ReconcileRestore(c, name, l, p))
  {
    AsReadIsPending(c, l);
    hide Distinct, Records, StartRestore, FollowRestore, Recover, AsRead;
    if WantsRestore(l) {
      StartTracks(c, name, l, p);
    } else if l.st.restore.name != "" {
      FollowTracks(c, l, p);
    } else if l.st.restore.handled != "" && l.st.restore.phase == "New" {
      RecoverTracks(c, l, p);
    } else {
      Inside(c, l);
    }
  }

  lemma Inside(c: Site, l: Local)
    requires AsRead(c, l)
    ensures l.version < |c.markers|
  {
  }

  // ---- the rest of the pass ----

  lemma SameRecord(c: Site, l: Local, st: OpsStatus)
    requires st.restore == l.st.restore
    ensures Pending(c, l) ==> Pending(c, l.(st := st))
  {
  }

  lemma TriggerIsCalm(c: Site, t: Turn, ask: string, name: string)
    ensures Calm(c, TriggerVeleroBackup(c, t, ask, name).0)
  {
    hide HappenAll, Calm;
    CallIsCalm(c, t, TriggerVeleroBackup(c, t, ask, name).0);
  }

  /** The backup part carries the restore's record along; it stores it if it stores at all. */
  lemma BackupTracks(c: Site, l: Local, p: Pass)
    requires Unstored(c, l)
    ensures var s := ReconcileBackup(c, l, p);
            && (s.end != Dies ==> Unstored(s.c, s.l))
            && (Tracked(c) ==> Tracked(s.c)) && |s.c.restores| == |c.restores|
  {
    hide HappenAll, Calm, Distinct, Records, Store, Set, Find, TriggerVeleroBackup, BackupSelection.IsTerminalBackupPhase;
    if WantsBackup(l) {
      var l0 := l.(st := l.st.(backup := BackupStatus(l.read.backupAsk, "", "New")));
      SameRecord(c, l, l0.st);
      StoreUnstored(c, p.consume, l0);
      StoreCounts(c, p.consume, l0);
      if Tracked(c) {
        StoreTracks(c, p.consume, l0);
      }
      var (c1, l1, f) := Store(c, p.consume, l0);
      var c2 := TriggerVeleroBackup(c1, p.trigger, l.read.backupAsk, p.backupName).0;
      TriggerIsCalm(c1, p.trigger, l.read.backupAsk, p.backupName);
      CalmUnstored(c1, c2, l1);
    } else {
      CallIsCalm(c, p.getBackup, At(c, p.getBackup));
      CalmUnstored(c, At(c, p.getBackup), l);
    }
  }

  lemma CalmUnstored(c: Site, d: Site, l: Local)
    requires Unstored(c, l) && Calm(c, d)
    ensures Unstored(d, l) && |d.restores| == |c.restores| && (Tracked(c) ==> Tracked(d))
  {
    CalmKeeps(c, d, l);
    hide Distinct, Records;
  }

  /** No status write is lost after this pass created a restore; its restores have names,
      and a creation that fails has no effect. */
  ghost predicate KeepsItsRestore(c: Site, name: string, p: Pass) {
    && p.sequence.create.fate != Lost && p.sequence.name != ""
    && var c0 := HappenAll(c, p.idle);
       c0.markers != [] ==>
         var s1 := ReconcileRestore(c0, name, Opened(c0, p), p);
         |s1.c.restores| > |c0.restores| ==>
           var s2 := ReconcileBackup(s1.c, s1.l, p);
           s2.end != Dies && Store(s2.c, p.store, s2.l).2 == Fine
  }

  lemma ForgottenIsTracked(c: Site)
    ensures Tracked(c) ==> Tracked(Forgotten(c))
  {
    hide Distinct, Records;
  }

  lemma PassTracks(c: Site, name: string, p: Pass)
    requires Tracked(c) && KeepsItsRestore(c, name, p)
    ensures Tracked(Reconcile(c, name, p).0)
  {
    var c0 := HappenAll(c, p.idle);
    EventsAreCalm(c, p.idle);
    var l := Opened(c0, p);
    CalmKeeps(c, c0, l);
    assert AsRead(c0, l);
    RestoreTracks(c0, name, l, p);
    hide HappenAll, Calm, Distinct, Records, Store, ReconcileRestore, ReconcileBackup, Tracked, AsRead, Unstored, Opened;
    var s1 := ReconcileRestore(c0, name, l, p);
    ForgottenIsTracked(s1.c);
    if s1.end != Dies {
      BackupTracks(s1.c, s1.l, p);
      var s2 := ReconcileBackup(s1.c, s1.l, p);
      ForgottenIsTracked(s2.c);
      if s2.end != Dies {
        StoreUnstored(s2.c, p.store, s2.l);
        if Tracked(s2.c) {
          UnstoredTracks(s2.c, p.store, s2.l);
        }
        ForgottenIsTracked(Store(s2.c, p.store, s2.l).0);
      }
    }
  }

  lemma UnstoredTracks(c: Site, t: Turn, l: Local)
    requires Tracked(c) && Unstored(c, l)
    ensures Tracked(Store(c, t, l).0)
  {
    StoreTracks(c, t, l);
    hide Store, Tracked;
  }

  // ---- whole runs ----

  ghost predicate AllKeep(c: Site, name: string, ps: seq<Pass>) {
    ps != [] ==>
      var n := |ps| - 1;
      AllKeep(c, name, ps[..n]) && KeepsItsRestore(Run(c, name, ps[..n]), name, ps[n])
  }

  lemma {:induction false} RunTracks(c: Site, name: string, ps: seq<Pass>)
    requires Tracked(c) && AllKeep(c, name, ps)
    ensures Tracked(Run(c, name, ps))
  {
    hide Tracked, Reconcile, KeepsItsRestore;
    if ps == [] {
    } else {
      RunTracks(c, name, ps[..|ps| - 1]);
      PassTracks(Run(c, name, ps[..|ps| - 1]), name, ps[|ps| - 1]);
    }
  }

  /** Over every run with one controller, crashes, stale reads and any number of requests
      included: at most one restore is active, and it is the one the marker records, as
      not ended. */
  lemma OneRestoreAtATime(c: Site, name: string, ps: seq<Pass>)
    requires Tracked(c) && AllKeep(c, name, ps)
    ensures var r := Run(c, name, ps);
            && (forall i | 0 <= i < |r.restores| && IsActive(r.restores[i]) ::
                  r.markers != [] && r.restores[i].name == Current(r).status.restore.name
                  && !IsTerminalRestorePhase(Current(r).status.restore.phase))
            && (forall i, j | 0 <= i < j < |r.restores| :: !(IsActive(r.restores[i]) && IsActive(r.restores[j])))
  {
    RunTracks(c, name, ps);
    hide Run, AllKeep, IsActive, IsTerminalRestorePhase;
  }
}
