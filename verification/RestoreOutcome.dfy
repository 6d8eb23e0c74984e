/**
 What each outcome of the destructive sequence says about the site, from an intact,
 deployed start; and what an outcome does not say.
 */
module RestoreOutcome {
  import opened Wrappers
  import opened Turns
  import opened Conditions
  import opened RestoreWorld
  import opened RestoreSequence
  import opened RestoreController

  /** Rebuilding a vcluster never gives it an etcd its chart does not have. */
  predicate Fits(e: Event, external: bool) {
    match e
    case FluxRebuilds(_, _, _, etcd) => etcd ==> external
    case VeleroRebuilds(_, _, _, etcd) => etcd ==> external
    case _ => true
  }

  ghost predicate FitsAll(t: Turn, external: bool) {
    forall e | e in t.before :: Fits(e, external)
  }

  /** The outside keeps to the vcluster's mode, until the volume is deleted. */
  ghost predicate FitsMode(k: Calls, external: bool) {
    && FitsAll(k.backup, external) && FitsAll(k.suspendHelm, external) && FitsAll(k.suspendKustomization, external)
    && FitsAll(k.detectEtcd, external) && FitsAll(k.detectControlPlane, external)
    && FitsAll(k.selector, external) && FitsAll(k.etcdSelector, external)
    && FitsAll(k.deleteControlPlane, external) && FitsAll(k.deleteEtcd, external) && FitsAll(k.deleteVolume, external)
  }

  /** The data volume is there, and the etcd of the mode. */
  predicate Intact(c: Site, external: bool) {
    Volume(c, external) == Bound && c.etcd == external
  }

  lemma EventKeeps(c: Site, e: Event, external: bool)
    ensures var d := Happen(c, e);
            && d.log == c.log
            && (Volume(c, external) == Bound ==> Volume(d, external) == Bound)
            && (c.etcd == external && Fits(e, external) ==> d.etcd == external)
  {
    hide FirstActive, Rebuilt, Volume;
    match e
    case VeleroRebuilds(x, a, b, etcd) => RebuiltKeeps(c, x, a, b, etcd, external);
    case FluxRebuilds(x, a, b, etcd) => RebuiltKeeps(c, x, a, b, etcd, external);
    case VolumeReleased(x) =>
      var d := WithVolume(c, x, Gone);
      assert Volume(c, x) == Terminating ==> d.log == c.log && d.etcd == c.etcd
                                             && (Volume(c, external) == Bound ==> Volume(d, external) == Bound) by {
        ReleaseKeeps(c, x, external);
      }
    case _ => SameVolume(c, Happen(c, e), external);
  }

  lemma RebuiltKeeps(c: Site, x: bool, a: bool, b: bool, etcd: bool, external: bool)
    ensures var d := Rebuilt(c, x, a, b, etcd);
            && d.log == c.log && d.etcd == (c.etcd || etcd)
            && (Volume(c, external) == Bound ==> Volume(d, external) == Bound)
  {
  }

  lemma ReleaseKeeps(c: Site, x: bool, external: bool)
    ensures var d := WithVolume(c, x, Gone);
            && d.log == c.log && d.etcd == c.etcd
            && (Volume(c, x) == Terminating && Volume(c, external) == Bound ==> Volume(d, external) == Bound)
  {
  }

  /** Nothing the outside does unbinds a bound volume. */
  lemma {:induction false} EventsKeep(c: Site, es: seq<Event>, external: bool)
    ensures var d := HappenAll(c, es);
            && d.log == c.log
            && (Volume(c, external) == Bound ==> Volume(d, external) == Bound)
            && (c.etcd == external && (forall e | e in es :: Fits(e, external)) ==> d.etcd == external)
  {
    hide Happen, Volume, Fits;
    if es == [] {
    } else {
      EventsKeep(c, es[..|es| - 1], external);
      EventKeeps(HappenAll(c, es[..|es| - 1]), es[|es| - 1], external);
    }
  }

  lemma TurnKeeps(c: Site, t: Turn, external: bool)
    ensures var d := At(c, t);
            && d.log == c.log
            && (Volume(c, external) == Bound ==> Volume(d, external) == Bound)
            && (c.etcd == external && FitsAll(t, external) ==> d.etcd == external)
  {
    EventsKeep(c, t.before, external);
    hide HappenAll, Volume, Fits;
  }

  lemma SameVolume(c: Site, c': Site, external: bool)
    requires c'.dataPvc == c.dataPvc && c'.etcdPvc == c.etcdPvc
    ensures Volume(c', external) == Volume(c, external)
  {
  }

  // ---- stage by stage ----

  predicate Deletes(e: Entry) {
    e.DeletedVolume?
  }

  /** A volume was deleted since. */
  ghost predicate DeletedAny(before: seq<Entry>, after: seq<Entry>) {
    exists i | |before| <= i < |after| :: Deletes(after[i])
  }

  /** The log went on from `before` without a volume being deleted. */
  ghost predicate NoDeletion(before: seq<Entry>, after: seq<Entry>) {
    before <= after && forall i | |before| <= i < |after| :: !Deletes(after[i])
  }

  lemma NoDeletionOn(a: seq<Entry>, b: seq<Entry>, c: seq<Entry>)
    requires NoDeletion(a, b) && NoDeletion(b, c)
    ensures NoDeletion(a, c)
  {
    forall i | |a| <= i < |c|
      ensures !Deletes(c[i])
    {
      if i < |b| {
        assert c[i] == b[i];
      }
    }
  }

  lemma NothingDeleted(log: seq<Entry>)
    ensures NoDeletion(log, log)
  {
  }

  lemma NoneDeleted(log: seq<Entry>, e: Entry)
    requires !Deletes(e)
    ensures NoDeletion(log, log) && NoDeletion(log, log + [e])
  {
  }

  const SUSPENDED := [PatchedHelmRelease(true), PatchedKustomization(true)]

  function Quieted(topo: Topology): seq<Entry> {
    [if topo.deployment then DeletedDeployment else DeletedStatefulSet] + if topo.external then [DeletedEtcd] else []
  }

  lemma SuspendTrail(c: Site, k: Calls, external: bool)
    requires FitsMode(k, external) && Intact(c, external)
    ensures var (c', f) := SetFluxSuspend(c, k.suspendHelm, k.suspendKustomization, true);
            && Intact(c', external) && NoDeletion(c.log, c'.log)
            && (f == Fine ==> c'.log == c.log + SUSPENDED)
  {
    hide HappenAll, Volume;
    TurnKeeps(c, k.suspendHelm, external);
    var c1 := PatchHelmRelease(c, k.suspendHelm, true).0;
    SameVolume(At(c, k.suspendHelm), c1, external);
    TurnKeeps(c1, k.suspendKustomization, external);
    SameVolume(At(c1, k.suspendKustomization), PatchKustomization(c1, k.suspendKustomization, true).0, external);
    assert c.log + SUSPENDED == c.log + [PatchedHelmRelease(true)] + [PatchedKustomization(true)];
  }

  lemma DetectTrail(c: Site, k: Calls, external: bool)
    requires FitsMode(k, external) && Intact(c, external)
    ensures var (c', f, topo) := Detect(c, k.detectEtcd, k.detectControlPlane);
            && Intact(c', external) && c'.log == c.log
            && (f == Fine ==> topo.external == external && (!external ==> !topo.deployment))
  {
    hide HappenAll, Volume;
    TurnKeeps(c, k.detectEtcd, external);
    TurnKeeps(At(c, k.detectEtcd), k.detectControlPlane, external);
  }

  lemma DeleteControlPlaneTrail(c: Site, t: Turn, topo: Topology)
    requires Volume(c, topo.external) == Bound
    ensures var (d, f) := DeleteControlPlane(c, t, topo.deployment);
            && Volume(d, topo.external) == Bound && NoDeletion(c.log, d.log)
            && (f == Fine ==> d.log == c.log + [if topo.deployment then DeletedDeployment else DeletedStatefulSet])
  {
    NoneDeleted(c.log, if topo.deployment then DeletedDeployment else DeletedStatefulSet);
    hide HappenAll, Volume, NoDeletion;
    TurnKeeps(c, t, topo.external);
    SameVolume(At(c, t), DeleteControlPlane(c, t, topo.deployment).0, topo.external);
  }

  lemma DeleteEtcdTrail(c: Site, t: Turn, external: bool)
    requires Volume(c, external) == Bound
    ensures var (d, f) := DeleteEtcd(c, t);
            && Volume(d, external) == Bound && NoDeletion(c.log, d.log)
            && (f == Fine ==> d.log == c.log + [DeletedEtcd])
  {
    NoneDeleted(c.log, DeletedEtcd);
    hide HappenAll, Volume, NoDeletion;
    TurnKeeps(c, t, external);
    SameVolume(At(c, t), DeleteEtcd(c, t).0, external);
  }

  lemma QuiesceTrail(c: Site, k: Calls, external: bool)
    requires FitsMode(k, external) && Intact(c, external)
    ensures var (c', f, topo) := Quiesce(c, k);
            && Volume(c', external) == Bound && NoDeletion(c.log, c'.log)
            && topo == Detect(c, k.detectEtcd, k.detectControlPlane).2
            && (f == Fine ==> topo.external == external && c'.log == c.log + Quieted(topo))
  {
    DetectTrail(c, k, external);
    hide HappenAll, Volume, DeleteControlPlane, DeleteEtcd, Detect, FitsAll;
    var (c1, f1, topo) := Detect(c, k.detectEtcd, k.detectControlPlane);
    if f1 == Fine {
      TurnKeeps(c1, k.selector, external);
      var c2 := At(c1, k.selector);
      TurnKeeps(c2, k.etcdSelector, external);
      var c3 := if topo.external then At(c2, k.etcdSelector) else c2;
      DeleteControlPlaneTrail(c3, k.deleteControlPlane, topo);
      var (c4, f4) := DeleteControlPlane(c3, k.deleteControlPlane, topo.deployment);
      if topo.external {
        DeleteEtcdTrail(c4, k.deleteEtcd, external);
        var (c5, f5) := DeleteEtcd(c4, k.deleteEtcd);
        NoDeletionOn(c.log, c4.log, c5.log);
        if f4 == Fine && f5 == Fine {
          assert c5.log == c.log + Quieted(topo);
        }
      }
    }
  }

  lemma PatchTrail(c: Site, t: Turn, kustomization: bool, external: bool)
    requires Volume(c, external) == Bound
    ensures var d := if kustomization then PatchKustomization(c, t, false).0 else PatchHelmRelease(c, t, false).0;
            NoDeletion(c.log, d.log) && Volume(d, external) == Bound
  {
    NoneDeleted(c.log, PatchedHelmRelease(false));
    NoneDeleted(c.log, PatchedKustomization(false));
    TurnKeeps(c, t, external);
    hide HappenAll, Volume, NoDeletion;
    SameVolume(At(c, t), PatchHelmRelease(c, t, false).0, external);
    SameVolume(At(c, t), PatchKustomization(c, t, false).0, external);
  }

  lemma AbortTrail(c: Site, k: Calls, external: bool)
    requires Volume(c, external) == Bound
    ensures var g := Abort(c, k);
            && NoDeletion(c.log, g.c.log) && Volume(g.c, external) == Bound
            && (g.r == StageFailure || g.r == Died)
  {
    PatchTrail(c, k.resumeHelm, false, external);
    hide PatchHelmRelease, PatchKustomization, Volume, NoDeletion;
    var c1 := PatchHelmRelease(c, k.resumeHelm, false).0;
    PatchTrail(c1, k.resumeKustomization, true, external);
    NoDeletionOn(c.log, c1.log, PatchKustomization(c1, k.resumeKustomization, false).0.log);
  }

  /** The outcome table of the last two stages, entered with the volume in place. A creation
      whose answer is lost counts as failed, though the restore is there. A deletion whose
      answer is lost counts as failed, though the volume is gone. */
  ghost predicate VolumeTable(before: seq<Entry>, g: Go, external: bool, from: string, k: Calls) {
    var gone := before + [DeletedVolume(external)];
    match g.r
    case Made(n) => n == k.name && g.c.log == gone + [CreatedRestore(n, from)]
    case StageFailureVolumeGone =>
      g.c.log == gone || (k.create.fate == Lost && g.c.log == gone + [CreatedRestore(k.name, from)])
    case StageFailure =>
      if k.deleteVolume.fate == Lost then gone <= g.c.log
      else NoDeletion(before, g.c.log) && Volume(g.c, external) == Bound
    case Died =>
      || g.c.log == gone
      || (NoDeletion(before, g.c.log) && Volume(g.c, external) == Bound)
      || (k.deleteVolume.fate == Lost && gone <= g.c.log)
    case _ => false
  }

  lemma CreateTrail(c: Site, from: string, k: Calls)
    ensures var g := CreateStage(c, from, k);
            && (g.r == Made(k.name) ==> g.c.log == c.log + [CreatedRestore(k.name, from)])
            && (g.r == Made(k.name) || g.r == StageFailureVolumeGone || g.r == Died)
            && (g.r == StageFailureVolumeGone ==>
                  g.c.log == c.log || (k.create.fate == Lost && g.c.log == c.log + [CreatedRestore(k.name, from)]))
            && (g.r == Died ==> g.c.log == c.log)
  {
    hide HappenAll, Named;
    EventsKeep(c, k.create.before, false);
  }

  lemma VolumeTrail(c: Site, topo: Topology, from: string, k: Calls)
    requires Volume(c, topo.external) == Bound
    ensures VolumeTable(c.log, VolumeStage(c, topo, from, k), topo.external, from, k)
  {
    hide HappenAll, Abort, CreateStage, NoDeletion;
    var external := topo.external;
    TurnKeeps(c, k.deleteVolume, external);
    var (c1, v) := DeleteVolume(c, k.deleteVolume, external);
    if v == VolumeKept {
      if k.deleteVolume.fate == Lost {
        AbortGoesOn(c1, k);
      } else {
        AbortTrail(c1, k, external);
      }
    } else if v == VolumeDeleted {
      CreateTrail(c1, from, k);
      assert c.log + [DeletedVolume(external), CreatedRestore(k.name, from)] ==
             c.log + [DeletedVolume(external)] + [CreatedRestore(k.name, from)];
    } else {
      NothingDeleted(c.log);
    }
  }

  /** Aborting, whatever the volume's state. */
  lemma AbortGoesOn(c: Site, k: Calls)
    ensures var g := Abort(c, k);
            c.log <= g.c.log && (g.r == StageFailure || g.r == Died)
  {
    hide HappenAll;
    TurnKeeps(c, k.resumeHelm, false);
    var c1 := PatchHelmRelease(c, k.resumeHelm, false).0;
    TurnKeeps(c1, k.resumeKustomization, false);
  }

  /** A stage that is told to have failed before the point of no return deleted the volume
      after all, exactly when the deletion's answer was lost. Flux is then put back over it. */
  lemma FailedStageDeletes(c: Site, topo: Topology, from: string, k: Calls)
    requires Volume(c, topo.external) == Bound && VolumeStage(c, topo, from, k).r == StageFailure
    ensures var g := VolumeStage(c, topo, from, k);
            && c.log <= g.c.log
            && (DeletedAny(c.log, g.c.log) <==> k.deleteVolume.fate == Lost)
            && (TakesEffect(k.resumeHelm) ==> PatchedHelmRelease(false) in g.c.log[|c.log|..])
  {
    VolumeTrail(c, topo, from, k);
    var external := topo.external;
    var gone := c.log + [DeletedVolume(external)];
    var g := VolumeStage(c, topo, from, k);
    VolumeStageIs(c, topo, from, k);
    var c1 := DeleteVolume(c, k.deleteVolume, external).0;
    AbortGoesOn(c1, k);
    hide HappenAll, Abort, VolumeStage, Volume, DeleteVolume;
    assert c.log <= c1.log <= g.c.log;
    if TakesEffect(k.resumeHelm) {
      AbortPatches(c1, k);
      assert g.c.log[|c.log|..][|c1.log| - |c.log|] == PatchedHelmRelease(false);
    }
    if k.deleteVolume.fate == Lost {
      assert gone[|c.log|] == DeletedVolume(external);
      assert Deletes(g.c.log[|c.log|]);
    }
  }

  lemma VolumeStageIs(c: Site, topo: Topology, from: string, k: Calls)
    requires VolumeStage(c, topo, from, k).r == StageFailure
    ensures var c1 := DeleteVolume(c, k.deleteVolume, topo.external).0;
            && VolumeStage(c, topo, from, k) == Abort(c1, k)
            && (c1.log == c.log || c1.log == c.log + [DeletedVolume(topo.external)])
  {
    EventsKeep(c, k.deleteVolume.before, false);
    hide HappenAll, Abort, CreateRestore, Volume;
  }

  lemma AbortPatches(c: Site, k: Calls)
    requires TakesEffect(k.resumeHelm)
    ensures c.log + [PatchedHelmRelease(false)] <= Abort(c, k).c.log
  {
    hide HappenAll;
    TurnKeeps(c, k.resumeHelm, false);
    var c1 := PatchHelmRelease(c, k.resumeHelm, false).0;
    TurnKeeps(c1, k.resumeKustomization, false);
  }

  // ---- the outcome table ----

  /** What was done, in order, once the volume is deleted. */
  function Trail(from: string, topo: Topology): seq<Entry> {
    [ReadBackup(from, "Completed")] + SUSPENDED + Quieted(topo) + [DeletedVolume(topo.external)]
  }

  /** The topology the sequence works on: what was deployed, as far as it could be read. */
  function Worked(c: Site, backup: string, k: Calls): Topology {
    var c1 := GetBackupPhase(c, k.backup, backup).0;
    var c2 := SetFluxSuspend(c1, k.suspendHelm, k.suspendKustomization, true).0;
    Detect(c2, k.detectEtcd, k.detectControlPlane).2
  }

  /** Success and "volume gone" mean the volume was deleted, after exactly the steps of the
      trail; every other outcome leaves it bound, but for a deletion whose answer was lost. A
      killed sequence stopped on either side. */
  ghost predicate OutcomeTable(before: seq<Entry>, g: Go, topo: Topology, external: bool, from: string, k: Calls) {
    var gone := before + Trail(from, topo);
    var intact := NoDeletion(before, g.c.log) && Volume(g.c, external) == Bound;
    var unheard := k.deleteVolume.fate == Lost && topo.external == external && gone <= g.c.log;
    match g.r
    case Made(n) => n == k.name && topo.external == external && g.c.log == gone + [CreatedRestore(n, from)]
    case StageFailureVolumeGone =>
      topo.external == external
      && (g.c.log == gone || (k.create.fate == Lost && g.c.log == gone + [CreatedRestore(k.name, from)]))
    case StageFailure => intact || unheard
    case Died => intact || unheard || (topo.external == external && g.c.log == gone)
    case _ => intact
  }

  lemma Prepended(before: seq<Entry>, mid: seq<Entry>, topo: Topology, g: Go, from: string, k: Calls)
    requires mid == before + ([ReadBackup(from, "Completed")] + SUSPENDED + Quieted(topo))
    requires VolumeTable(mid, g, topo.external, from, k)
    ensures OutcomeTable(before, g, topo, topo.external, from, k)
  {
    hide Volume;
    assert mid + [DeletedVolume(topo.external)] == before + Trail(from, topo);
    assert NoDeletion(before, mid);
    if NoDeletion(mid, g.c.log) {
      NoDeletionOn(before, mid, g.c.log);
    }
  }

  lemma QuiesceOutcome(before: seq<Entry>, c: Site, from: string, k: Calls, external: bool)
    requires FitsMode(k, external) && Intact(c, external)
    requires c.log == before + ([ReadBackup(from, "Completed")] + SUSPENDED)
    ensures OutcomeTable(before, QuiesceStage(c, from, k), Detect(c, k.detectEtcd, k.detectControlPlane).2, external, from, k)
  {
    QuiesceTrail(c, k, external);
    hide HappenAll, Volume, Quiesce, VolumeStage, Abort, Detect, FitsMode, Quieted;
    var (c1, f, topo) := Quiesce(c, k);
    assert NoDeletion(before, c.log);
    NoDeletionOn(before, c.log, c1.log);
    if f == Fine {
      VolumeTrail(c1, topo, from, k);
      assert c1.log == before + ([ReadBackup(from, "Completed")] + SUSPENDED + Quieted(topo));
      Prepended(before, c1.log, topo, VolumeStage(c1, topo, from, k), from, k);
    } else if f == Fault {
      AbortTrail(c1, k, external);
      NoDeletionOn(before, c1.log, Abort(c1, k).c.log);
    }
  }

  lemma SuspendOutcome(before: seq<Entry>, c: Site, from: string, k: Calls, external: bool)
    requires FitsMode(k, external) && Intact(c, external) && c.log == before + [ReadBackup(from, "Completed")]
    ensures var c2 := SetFluxSuspend(c, k.suspendHelm, k.suspendKustomization, true).0;
            OutcomeTable(before, SuspendStage(c, from, k), Detect(c2, k.detectEtcd, k.detectControlPlane).2, external, from, k)
  {
    SuspendTrail(c, k, external);
    hide HappenAll, Volume, SetFluxSuspend, QuiesceStage, Detect, FitsMode, Trail;
    var (c2, f) := SetFluxSuspend(c, k.suspendHelm, k.suspendKustomization, true);
    assert NoDeletion(before, c.log);
    NoDeletionOn(before, c.log, c2.log);
    if f == Fine {
      assert c2.log == before + ([ReadBackup(from, "Completed")] + SUSPENDED);
      QuiesceOutcome(before, c2, from, k, external);
    }
  }

  lemma BackupRead(c: Site, backup: string, k: Calls, external: bool)
    requires FitsMode(k, external) && Intact(c, external)
    ensures var (c1, phase) := GetBackupPhase(c, k.backup, backup);
            && Intact(c1, external) && NoDeletion(c.log, c1.log)
            && (phase == Some("Completed") ==> c1.log == c.log + [ReadBackup(backup, "Completed")])
  {
    hide HappenAll, Volume;
    TurnKeeps(c, k.backup, external);
    SameVolume(At(c, k.backup), GetBackupPhase(c, k.backup, backup).0, external);
  }

  /** From an intact, deployed start, for embedded and external etcd alike: the data
      volume is deleted exactly on success and on the "volume gone" failure, always the
      one of the topology before quiescing, and always after a Completed backup was read,
      both Flux objects were suspended and the workloads were deleted, in that order. Only
      a deletion whose answer is lost is told as a failure that left the volume. */
  lemma OutcomeIsTold(c: Site, name: string, backup: string, target: string, k: Calls, external: bool)
    requires FitsMode(k, external) && Intact(c, external)
    ensures OutcomeTable(c.log, Create(c, name, backup, target, k), Worked(c, backup, k), external, backup, k)
  {
    BackupRead(c, backup, k, external);
    NothingDeleted(c.log);
    hide HappenAll, Volume, GetBackupPhase, SetFluxSuspend, SuspendStage, Detect, FitsMode, Trail, NoDeletion, Attemptable;
    var (c1, phase) := GetBackupPhase(c, k.backup, backup);
    if phase == Some("Completed") {
      SuspendOutcome(c.log, c1, backup, k, external);
    }
  }

  /** The log of a sequence that deleted the volume says so. */
  lemma TrailDeletes(before: seq<Entry>, after: seq<Entry>, from: string, topo: Topology)
    requires before + Trail(from, topo) <= after
    ensures exists i | |before| <= i < |after| :: Deletes(after[i])
  {
    var n := |before| + |Trail(from, topo)| - 1;
    assert Trail(from, topo)[|Trail(from, topo)| - 1] == DeletedVolume(topo.external);
    assert (before + Trail(from, topo))[n] == DeletedVolume(topo.external);
    assert Deletes(after[n]);
  }

  /** With the deletion's answer heard, the table says when the volume was deleted. */
  lemma TableTells(before: seq<Entry>, g: Go, topo: Topology, external: bool, from: string, k: Calls)
    requires OutcomeTable(before, g, topo, external, from, k) && k.deleteVolume.fate != Lost && g.r != Died
    ensures DeletedAny(before, g.c.log) <==> g.r.Made? || g.r == StageFailureVolumeGone
  {
    hide Trail, Volume;
    if g.r.Made? || g.r == StageFailureVolumeGone {
      TrailDeletes(before, g.c.log, from, topo);
    }
  }

  /** The sequence comes to delete the volume. */
  predicate ReachesVolume(c: Site, name: string, backup: string, target: string, k: Calls) {
    Attemptable(name, backup, target)
    && var (c1, phase) := GetBackupPhase(c, k.backup, backup);
       var (c2, f) := SetFluxSuspend(c1, k.suspendHelm, k.suspendKustomization, true);
       phase == Some("Completed") && f == Fine && Quiesce(c2, k).1 == Fine
  }

  function VolumeReachedAt(c: Site, backup: string, k: Calls): (Site, Flow, Topology) {
    Quiesce(SetFluxSuspend(GetBackupPhase(c, k.backup, backup).0, k.suspendHelm, k.suspendKustomization, true).0, k)
  }

  lemma ReachedIs(c: Site, name: string, backup: string, target: string, k: Calls)
    requires ReachesVolume(c, name, backup, target, k)
    ensures var (c3, _, topo) := VolumeReachedAt(c, backup, k);
            Create(c, name, backup, target, k) == VolumeStage(c3, topo, backup, k)
  {
    GetBackupTells(c, k.backup, backup);
    hide Attemptable, GetBackupPhase, SetFluxSuspend, Quiesce, VolumeStage, Abort;
  }

  lemma GetBackupTells(c: Site, t: Turn, backup: string)
    ensures GetBackupPhase(c, t, backup).1.Some? ==> t.fate == Served
  {
    hide HappenAll;
  }

  /** A volume deletion that is not reached plays no part. */
  lemma UnreachedIs(c: Site, name: string, backup: string, target: string, k: Calls, t: Turn)
    requires !ReachesVolume(c, name, backup, target, k)
    ensures Create(c, name, backup, target, k.(deleteVolume := t)) == Create(c, name, backup, target, k)
  {
    hide Attemptable, GetBackupPhase, SetFluxSuspend, Quiesce, QuiesceStage;
    var c1 := GetBackupPhase(c, k.backup, backup).0;
    var c2 := SetFluxSuspend(c1, k.suspendHelm, k.suspendKustomization, true).0;
    if Quiesce(c2, k).1 != Fine {
      QuiesceStageIgnores(c2, backup, k, t);
    }
  }

  lemma QuiesceStageIgnores(c: Site, from: string, k: Calls, t: Turn)
    requires Quiesce(c, k).1 != Fine
    ensures QuiesceStage(c, from, k.(deleteVolume := t)) == QuiesceStage(c, from, k)
  {
    QuiesceIgnores(c, k, t);
    hide SetFluxSuspend, Quiesce, VolumeStage;
  }

  lemma QuiesceIgnores(c: Site, k: Calls, t: Turn)
    ensures Quiesce(c, k.(deleteVolume := t)) == Quiesce(c, k)
  {
    hide Detect, DeleteControlPlane, DeleteEtcd, ReadSelector;
  }

  lemma ReachedIsBound(c: Site, name: string, backup: string, target: string, k: Calls, external: bool)
    requires FitsMode(k, external) && Intact(c, external) && ReachesVolume(c, name, backup, target, k)
    ensures var (c3, _, topo) := VolumeReachedAt(c, backup, k);
            topo.external == external && Volume(c3, external) == Bound && NoDeletion(c.log, c3.log)
  {
    BackupRead(c, backup, k, external);
    hide HappenAll, Volume, GetBackupPhase, SetFluxSuspend, Quiesce, FitsMode, NoDeletion, Attemptable;
    var c1 := GetBackupPhase(c, k.backup, backup).0;
    SuspendTrail(c1, k, external);
    var c2 := SetFluxSuspend(c1, k.suspendHelm, k.suspendKustomization, true).0;
    QuiesceTrail(c2, k, external);
    NoDeletionOn(c.log, c1.log, c2.log);
    NoDeletionOn(c.log, c2.log, Quiesce(c2, k).0.log);
  }

  /** Hence what is told is what was done, the volume deleted exactly on success and on "volume
      gone", unless the sequence comes to delete it and the answer to that is lost; and then
      never. */
  lemma ToldIsDoneExactly(c: Site, name: string, backup: string, target: string, k: Calls, external: bool)
    requires FitsMode(k, external) && Intact(c, external) && Create(c, name, backup, target, k).r != Died
    ensures var g := Create(c, name, backup, target, k);
            (DeletedAny(c.log, g.c.log) <==> g.r.Made? || g.r == StageFailureVolumeGone)
            <==> !(ReachesVolume(c, name, backup, target, k) && k.deleteVolume.fate == Lost)
  {
    var g := Create(c, name, backup, target, k);
    if k.deleteVolume.fate != Lost {
      OutcomeIsTold(c, name, backup, target, k, external);
      hide *;
      TableTells(c.log, g, Worked(c, backup, k), external, backup, k);
    } else if ReachesVolume(c, name, backup, target, k) {
      ReachedIs(c, name, backup, target, k);
      ReachedIsBound(c, name, backup, target, k, external);
      var (c3, _, topo) := VolumeReachedAt(c, backup, k);
      LostIsFailure(c3, topo, backup, k);
      FailedStageDeletes(c3, topo, backup, k);
      hide Create, VolumeStage, Volume, Deletes, VolumeReachedAt, ReachesVolume, FitsMode, Intact, Quiesce;
      assert DeletedAny(c.log, g.c.log);
    } else {
      var t := k.deleteVolume.(fate := Refused);
      UnreachedIs(c, name, backup, target, k, t);
      OutcomeIsTold(c, name, backup, target, k.(deleteVolume := t), external);
      hide *;
      TableTells(c.log, g, Worked(c, backup, k.(deleteVolume := t)), external, backup, k.(deleteVolume := t));
    }
  }

  lemma LostIsFailure(c: Site, topo: Topology, from: string, k: Calls)
    requires k.deleteVolume.fate == Lost
    ensures VolumeStage(c, topo, from, k).r == StageFailure || VolumeStage(c, topo, from, k).r == Died
  {
    hide HappenAll, CreateStage, Volume, Abort;
    var (c1, v) := DeleteVolume(c, k.deleteVolume, topo.external);
    assert v == VolumeKept && VolumeStage(c, topo, from, k) == Abort(c1, k);
    AbortGoesOn(c1, k);
  }

  /** The status tells the volume destroyed exactly when the sequence deleted it and no restore
      is known of, as long as the deletion's answer is not lost. */
  lemma DestructionIsRecorded(c: Site, name: string, backup: string, target: string, k: Calls, external: bool,
                              st: OpsStatus, now: int)
    requires FitsMode(k, external) && Intact(c, external) && k.deleteVolume.fate != Lost && !st.restore.volumeDestroyed
    requires Create(c, name, backup, target, k).r != Died
    ensures var g := Create(c, name, backup, target, k);
            var told := Recorded(st, g.r, now);
            && (told.restore.volumeDestroyed <==> DeletedAny(c.log, g.c.log) && !g.r.Made?)
            && (told.restore.phase == "Failed" <==> !g.r.Made?)
            && (told.restore.volumeDestroyed ==> HasReason(told.conditions, RestoreNeedsRetry, VolumeGone))
  {
    OutcomeIsTold(c, name, backup, target, k, external);
    hide *;
    var g := Create(c, name, backup, target, k);
    TableTells(c.log, g, Worked(c, backup, k), external, backup, k);
    RecordedTells(st, g.r, now);
  }

  /** How each outcome shows in the status. */
  lemma RecordedTells(st: OpsStatus, r: Result, now: int)
    requires r != Died
    ensures var told := Recorded(st, r, now);
            && (told.restore.volumeDestroyed <==> st.restore.volumeDestroyed || r == StageFailureVolumeGone)
            && (told.restore.phase == "Failed" <==> !r.Made?)
            && (r == StageFailureVolumeGone ==> HasReason(told.conditions, RestoreNeedsRetry, VolumeGone))
            && (r == StageFailure ==> HasReason(told.conditions, RestoreNeedsRetry, StageFailed))
            && (!r.Made? ==> HasReason(told.conditions, RestoreInProgress, StageFailed)
                             && HasStatus(told.conditions, RestoreInProgress, ConditionFalse))
            && (r.Made? ==> told.restore.name == r.name && told.conditions == st.conditions)
            && told.restore.handled == st.restore.handled
  {
  }
}
