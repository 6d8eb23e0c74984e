/**
 Where the restore falls short of what one would expect of it, and exactly when.
 */
module RestoreLimits {
  import opened Wrappers
  import opened Turns
  import BackupSelection
  import opened Conditions
  import opened RestoreWorld
  import opened RestoreSequence
  import opened RestoreController
  import opened RestoreAside
  import RestoreOutcome
  import RestoreSafety

  // ---- what keeps Flux as it is ----

  lemma {:induction false} EventsKeepFlux(c: Site, es: seq<Event>)
    ensures HappenAll(c, es).helmSuspended == c.helmSuspended
    ensures c.statefulSet ==> HappenAll(c, es).statefulSet
  {
    if es == [] {
    } else {
      EventsKeepFlux(c, es[..|es| - 1]);
      EventKeepsFlux(HappenAll(c, es[..|es| - 1]), es[|es| - 1]);
      hide Happen;
    }
  }

  lemma EventKeepsFlux(c: Site, e: Event)
    ensures Happen(c, e).helmSuspended == c.helmSuspended && (c.statefulSet ==> Happen(c, e).statefulSet)
  {
    if e.VeleroRebuilds? || e.FluxRebuilds? {
      RebuiltKeepsFlux(c, e.external, e.deployment, e.statefulSet, e.etcd);
      hide *;
      EventIs(c, e);
    } else if e.VolumeReleased? {
      RebuiltKeepsFlux(c, e.external, false, false, false);
      hide *;
      EventIs(c, e);
    }
  }

  lemma RebuiltKeepsFlux(c: Site, x: bool, a: bool, b: bool, etcd: bool)
    ensures var d := Rebuilt(c, x, a, b, etcd); d.helmSuspended == c.helmSuspended && d.statefulSet == (c.statefulSet || b)
    ensures var d := WithVolume(c, x, Gone); d.helmSuspended == c.helmSuspended && d.statefulSet == c.statefulSet
  {
    hide Volume;
  }

  lemma QuiesceKeepsFlux(c: Site, k: Calls)
    ensures Quiesce(c, k).0.helmSuspended == c.helmSuspended
  {
    var (c1, f1, topo) := Detect(c, k.detectEtcd, k.detectControlPlane);
    EventsKeepFlux(c, k.detectEtcd.before);
    EventsKeepFlux(At(c, k.detectEtcd), k.detectControlPlane.before);
    EventsKeepFlux(c1, k.selector.before);
    var c2 := At(c1, k.selector);
    EventsKeepFlux(c2, k.etcdSelector.before);
    var c3 := if topo.external then At(c2, k.etcdSelector) else c2;
    EventsKeepFlux(c3, k.deleteControlPlane.before);
    var c4 := DeleteControlPlane(c3, k.deleteControlPlane, topo.deployment).0;
    EventsKeepFlux(c4, k.deleteEtcd.before);
    hide HappenAll;
  }

  lemma DeleteVolumeKeepsFlux(c: Site, t: Turn, external: bool)
    ensures DeleteVolume(c, t, external).0.helmSuspended == c.helmSuspended
  {
    EventsKeepFlux(c, t.before);
    hide HappenAll, Volume;
  }

  lemma AbortFlux(c: Site, k: Calls)
    requires c.helmSuspended
    ensures Abort(c, k).c.helmSuspended <==> !TakesEffect(k.resumeHelm)
  {
    EventsKeepFlux(c, k.resumeHelm.before);
    EventsKeepFlux(PatchHelmRelease(c, k.resumeHelm, false).0, k.resumeKustomization.before);
    hide HappenAll;
  }

  lemma CreateStageFlux(c: Site, from: string, k: Calls)
    ensures CreateStage(c, from, k).c.helmSuspended == c.helmSuspended
  {
    EventsKeepFlux(c, k.create.before);
    hide HappenAll, Named;
  }

  // ---- Flux put back with the volume gone ----

  /** One stage's end, then the next's. */
  function Then(a: Flow, b: Flow): Flow {
    if a == Fine then b else a
  }

  /** How the calls of quiescing, and the volume deletion, end together: as the first that does
      not go through. A second topology read that fails is not noticed. */
  function StageFlow(k: Calls, external: bool): Flow {
    Then(QuiesceFlow(k, external), FlowOf(k.deleteVolume))
  }

  function QuiesceFlow(k: Calls, external: bool): Flow {
    Then(FlowOf(k.detectEtcd),
         Then(if external && !Alive(k.detectControlPlane) then Dead else Fine,
              Then(FlowOf(k.selector),
                   Then(if external then FlowOf(k.etcdSelector) else Fine,
                        Then(FlowOf(k.deleteControlPlane), if external then FlowOf(k.deleteEtcd) else Fine)))))
  }

  lemma QuiesceEnds(c: Site, k: Calls)
    ensures Quiesce(c, k).1 == QuiesceFlow(k, At(c, k.detectEtcd).etcd)
  {
    hide HappenAll;
  }

  /** Once suspended, the HelmRelease is put back exactly when a call of quiescing or the volume
      deletion fails before any is cut off, and the patch takes effect: whether the volume is
      still there plays no part. */
  lemma PutBackExactly(c: Site, from: string, k: Calls)
    requires c.helmSuspended
    ensures !QuiesceStage(c, from, k).c.helmSuspended <==>
            StageFlow(k, At(c, k.detectEtcd).etcd) == Fault && TakesEffect(k.resumeHelm)
  {
    QuiesceEnds(c, k);
    QuiesceKeepsFlux(c, k);
    hide HappenAll, Quiesce, Abort, CreateStage, DeleteVolume, QuiesceFlow;
    var (c1, f, topo) := Quiesce(c, k);
    if f == Fault {
      AbortFlux(c1, k);
    } else if f == Fine {
      var c2 := DeleteVolume(c1, k.deleteVolume, topo.external).0;
      DeleteVolumeKeepsFlux(c1, k.deleteVolume, topo.external);
      VolumeKeptMeans(c1, k.deleteVolume, topo.external);
      CreateStageFlux(c2, from, k);
      AbortFlux(c2, k);
    }
  }

  lemma VolumeKeptMeans(c: Site, t: Turn, external: bool)
    ensures DeleteVolume(c, t, external).1 == VolumeKept <==> FlowOf(t) == Fault
    ensures DeleteVolume(c, t, external).1 == VolumeDead <==> FlowOf(t) == Dead
  {
    hide HappenAll, Volume;
  }

  /** No restore at work puts the volume back while these calls are made. */
  predicate NoRebuild(t: Turn) {
    forall e | e in t.before :: !e.VeleroRebuilds?
  }

  predicate NoRebuilds(k: Calls) {
    && NoRebuild(k.detectEtcd) && NoRebuild(k.detectControlPlane) && NoRebuild(k.selector) && NoRebuild(k.etcdSelector)
    && NoRebuild(k.deleteControlPlane) && NoRebuild(k.deleteEtcd) && NoRebuild(k.deleteVolume) && NoRebuild(k.resumeHelm)
  }

  /** With Flux suspended and no restore at work, a volume that is gone stays gone. */
  lemma {:induction false} GoneStays(c: Site, es: seq<Event>, external: bool)
    requires c.helmSuspended && Volume(c, external) == Gone && forall e | e in es :: !e.VeleroRebuilds?
    ensures Volume(HappenAll(c, es), external) == Gone && HappenAll(c, es).helmSuspended
  {
    hide Happen, Volume;
    if es == [] {
    } else {
      var n := |es| - 1;
      GoneStays(c, es[..n], external);
      var d := HappenAll(c, es[..n]);
      GoneStaysOnce(d, es[n], external);
      EventKeepsFlux(d, es[n]);
    }
  }

  lemma GoneStaysOnce(c: Site, e: Event, external: bool)
    requires c.helmSuspended && Volume(c, external) == Gone && !e.VeleroRebuilds?
    ensures Volume(Happen(c, e), external) == Gone
  {
    hide FirstActive, Rebuilt;
  }

  lemma GoneAt(c: Site, t: Turn, external: bool)
    requires c.helmSuspended && Volume(c, external) == Gone && NoRebuild(t)
    ensures Volume(At(c, t), external) == Gone && At(c, t).helmSuspended
  {
    GoneStays(c, t.before, external);
    hide HappenAll, Volume;
  }

  /** Flux suspended over a volume that is gone. */
  predicate Bare(c: Site, external: bool) {
    c.helmSuspended && Volume(c, external) == Gone
  }

  lemma QuiesceStaysBare(c: Site, k: Calls, external: bool)
    requires Bare(c, external) && NoRebuilds(k)
    ensures Bare(Quiesce(c, k).0, external)
  {
    DetectStaysBare(c, k, external);
    hide HappenAll, NoRebuild, Detect, DeleteControlPlane, DeleteEtcd, Bare;
    var (c1, f1, topo) := Detect(c, k.detectEtcd, k.detectControlPlane);
    BareAt(c1, k.selector, external);
    var c2 := At(c1, k.selector);
    BareAt(c2, k.etcdSelector, external);
    var c3 := if topo.external then At(c2, k.etcdSelector) else c2;
    WorkloadsStayBare(c3, k, topo, external);
  }

  lemma BareAt(c: Site, t: Turn, external: bool)
    requires Bare(c, external) && NoRebuild(t)
    ensures Bare(At(c, t), external)
  {
    GoneAt(c, t, external);
    hide HappenAll, Volume;
  }

  lemma DetectStaysBare(c: Site, k: Calls, external: bool)
    requires Bare(c, external) && NoRebuild(k.detectEtcd) && NoRebuild(k.detectControlPlane)
    ensures Bare(Detect(c, k.detectEtcd, k.detectControlPlane).0, external)
  {
    hide HappenAll, NoRebuild, Bare;
    BareAt(c, k.detectEtcd, external);
    BareAt(At(c, k.detectEtcd), k.detectControlPlane, external);
  }

  lemma WorkloadsStayBare(c: Site, k: Calls, topo: Topology, external: bool)
    requires Bare(c, external) && NoRebuild(k.deleteControlPlane) && NoRebuild(k.deleteEtcd)
    ensures var c1 := DeleteControlPlane(c, k.deleteControlPlane, topo.deployment).0;
            Bare(c1, external) && Bare(DeleteEtcd(c1, k.deleteEtcd).0, external)
  {
    hide HappenAll, NoRebuild;
    BareAt(c, k.deleteControlPlane, external);
    var c1 := DeleteControlPlane(c, k.deleteControlPlane, topo.deployment).0;
    assert Bare(c1, external);
    BareAt(c1, k.deleteEtcd, external);
  }

  /** Where an abort puts Flux back, if it does: after quiescing and the volume deletion. */
  function AbortedAt(c: Site, k: Calls): Site {
    var (c1, f, topo) := Quiesce(c, k);
    At(if f == Fine then DeleteVolume(c1, k.deleteVolume, topo.external).0 else c1, k.resumeHelm)
  }

  /** On a retry whose volume is already gone: Flux is put back over the missing volume exactly
      when some call of quiescing, or the deletion of the volume that is not there, fails. */
  lemma RetryResumesWithoutVolume(c: Site, from: string, k: Calls, external: bool)
    requires Bare(c, external) && NoRebuilds(k)
    ensures Bare(AbortedAt(c, k), external)
    ensures !QuiesceStage(c, from, k).c.helmSuspended <==>
            StageFlow(k, At(c, k.detectEtcd).etcd) == Fault && TakesEffect(k.resumeHelm)
  {
    PutBackExactly(c, from, k);
    QuiesceStaysBare(c, k, external);
    var (c1, f, topo) := Quiesce(c, k);
    GoneAt(c1, k.deleteVolume, external);
    var c2 := DeleteVolume(c1, k.deleteVolume, topo.external).0;
    hide HappenAll, Quiesce, QuiesceStage, StageFlow, NoRebuild;
    GoneStaysDeleted(c1, k.deleteVolume, topo.external, external);
    GoneAt(c1, k.resumeHelm, external);
    GoneAt(c2, k.resumeHelm, external);
  }

  lemma GoneStaysDeleted(c: Site, t: Turn, x: bool, external: bool)
    requires Bare(At(c, t), external)
    ensures Bare(DeleteVolume(c, t, x).0, external)
  {
    hide HappenAll;
  }

  predicate Quiet(t: Turn) {
    t == Turn([], Served)
  }

  predicate QuietReads(k: Calls) {
    Quiet(k.detectEtcd) && Quiet(k.detectControlPlane) && Quiet(k.selector) && Quiet(k.etcdSelector)
    && Quiet(k.resumeHelm) && Quiet(k.resumeKustomization)
  }

  /** Two such inputs: a control plane that cannot be deleted, and a volume deletion refused. */
  lemma RetryWitnesses(c: Site, from: string, k: Calls, external: bool)
    requires Volume(c, external) == Gone && c.etcd == external && QuietReads(k)
    requires k.deleteControlPlane == Turn([], Refused)
             || (Quiet(k.deleteControlPlane) && Quiet(k.deleteEtcd) && k.deleteVolume == Turn([], Refused))
    ensures var g := QuiesceStage(c, from, k);
            && g.r == StageFailure && Volume(g.c, external) == Gone
            && !g.c.helmSuspended && !g.c.kustomizationSuspended
  {
    assert forall d: Site :: HappenAll(d, []) == d;
    hide HappenAll;
    var (c1, f, topo) := Quiesce(c, k);
    assert Volume(c1, external) == Gone && topo.external == external;
    assert f == (if k.deleteControlPlane.fate == Refused then Fault else Fine);
    if f == Fine {
      assert DeleteVolume(c1, k.deleteVolume, external) == (c1, VolumeKept);
    }
    hide Quiesce;
  }

  // ---- Flux left suspended before the point of no return ----

  /** A failed stage leaves the HelmRelease suspended exactly when it was so, or its suspension
      took effect, and it is not put back: because suspending itself failed, which puts nothing
      back, or because putting it back did not take effect. */
  lemma LeftSuspendedExactly(c: Site, from: string, k: Calls)
    requires SuspendStage(c, from, k).r == StageFailure
    ensures SuspendStage(c, from, k).c.helmSuspended <==>
            && (c.helmSuspended || TakesEffect(k.suspendHelm))
            && (k.suspendHelm.fate != Served || k.suspendKustomization.fate != Served || !TakesEffect(k.resumeHelm))
  {
    EventsKeepFlux(c, k.suspendHelm.before);
    var c1 := PatchHelmRelease(c, k.suspendHelm, true).0;
    EventsKeepFlux(c1, k.suspendKustomization.before);
    hide HappenAll, QuiesceStage;
    var (c2, f) := SetFluxSuspend(c, k.suspendHelm, k.suspendKustomization, true);
    if f == Fine {
      PutBackExactly(c2, from, k);
      StageFailureMeans(c2, from, k);
    }
  }

  lemma StageFailureMeans(c: Site, from: string, k: Calls)
    requires QuiesceStage(c, from, k).r == StageFailure
    ensures StageFlow(k, At(c, k.detectEtcd).etcd) == Fault
  {
    QuiesceEnds(c, k);
    var (c1, f, topo) := Quiesce(c, k);
    VolumeKeptMeans(c1, k.deleteVolume, topo.external);
    hide HappenAll, Quiesce, Abort, CreateRestore, DeleteVolume, QuiesceFlow;
  }

  // ---- the volume as an interrupted sequence sees it ----

  /** Detected again, the topology is the external one only while its etcd stands. A volume
      reported bound is bound; one reported gone may be intact, exactly when the etcd
      StatefulSet of an external etcd was already deleted. */
  lemma VolumeGoneIsOneSided(c: Site, external: bool, etcd: Turn, controlPlane: Turn, pvc: Turn)
    requires Volume(c, !external) == Gone && (c.etcd ==> external)
    requires Quiet(etcd) && Quiet(controlPlane) && Quiet(pvc)
    ensures var (d, f, seen) := ReadVolume(c, etcd, controlPlane, pvc);
            && f == Fine
            && (seen == Bound ==> Volume(c, external) == Bound)
            && (seen != Bound && Volume(c, external) == Bound <==>
                external && !c.etcd && c.etcdPvc == Bound)
  {
    assert forall d: Site :: HappenAll(d, []) == d;
    hide HappenAll;
  }

  // ---- a control plane left alive ----

  /** With the control plane a StatefulSet, quiescing leaves it alive exactly when etcd is
      external and the second read was not served: it is then taken for a Deployment. */
  lemma ControlPlaneLeftAlive(c: Site, k: Calls, external: bool)
    requires c.statefulSet && c.etcd == external && RestoreOutcome.FitsMode(k, external) && Quiesce(c, k).1 == Fine
    requires k.deleteEtcd.before == []
    ensures Quiesce(c, k).0.statefulSet <==> external && k.detectControlPlane.fate != Served
  {
    EventsKeepFlux(c, k.detectEtcd.before);
    RestoreOutcome.TurnKeeps(c, k.detectEtcd, external);
    var a := At(c, k.detectEtcd);
    EventsKeepFlux(a, k.detectControlPlane.before);
    var (c1, f1, topo) := Detect(c, k.detectEtcd, k.detectControlPlane);
    EventsKeepFlux(c1, k.selector.before);
    var c2 := At(c1, k.selector);
    EventsKeepFlux(c2, k.etcdSelector.before);
    var c3 := if topo.external then At(c2, k.etcdSelector) else c2;
    EventsKeepFlux(c3, k.deleteControlPlane.before);
    assert forall d: Site :: HappenAll(d, []) == d;
    hide HappenAll;
  }

  // ---- the guard against a second restore ----

  /** Whether a second sequence is called is decided by the record alone: with the name of a
      running restore never stored, the next request starts one beside it. */
  lemma GuardReadsOnlyTheRecord(c: Site, name: string, l: Local, p: Pass)
    requires WantsRestore(l) && (l.read.target == "" || l.read.target == name)
    requires Store(c, p.reserve, l.(st := Reservation(l.read, l.st, c.now))).2 == Fine
    ensures var log := StartRestore(c, name, l, p).c.log;
            c.log <= log && (Called(l.read.restoreAsk) in log[|c.log|..] <==> !Busy(l.st.restore))
  {
    var l0 := l.(st := Reservation(l.read, l.st, c.now));
    StoreTells(c, p.reserve, l0);
    var (c1, l1, f) := Store(c, p.reserve, l0);
    CallIsSequence(c1, name, l1, p);
    hide Store, CallSequence, HappenAll, Set, Remove;
    var s := StartRestore(c, name, l, p);
    if !Busy(l.st.restore) {
      assert c1.log + [Called(l.read.restoreAsk)] <= s.c.log;
      assert s.c.log[|c1.log|] == Called(l.read.restoreAsk);
      assert s.c.log[|c.log|..][|c1.log| - |c.log|] == Called(l.read.restoreAsk);
    }
  }

  // ---- a reservation stored with nothing called ----

  /** A status write that lands: it takes effect, and no other version came in between. */
  predicate Lands(c: Site, t: Turn, version: nat) {
    TakesEffect(t) && version + 1 == |At(c, t).markers|
  }

  /** The pass starts a new, unobstructed request from the current version. */
  predicate StartsOnCurrent(c: Site, name: string, l: Local) {
    && l.version + 1 == |c.markers| && c.markers[l.version] == l.read && l.st == l.read.status
    && WantsRestore(l) && !Busy(l.st.restore) && (l.read.target == "" || l.read.target == name)
  }

  /** The marker as it counts the request handled. */
  predicate Consumed(c: Site, ask: string) {
    c.markers != [] && Current(c).status.restore.handled == ask
  }

  lemma StoredIsConsumed(c: Site, t: Turn, l: Local, ask: string)
    requires c.markers != [] && l.version < |c.markers| && l.st.restore.handled == ask
    ensures var (d, l', f) := Store(c, t, l);
            && (Consumed(d, ask) <==> Consumed(c, ask) || Lands(c, t, l.version))
            && l'.st == l.st && l'.read == l.read && l'.version < |d.markers| && d.markers != []
            && (Unanswered(c.log, d.log))
  {
    StoreTells(c, t, l);
    GrownConsumed(c, At(c, t), ask);
    hide HappenAll, Store, Grown;
  }

  lemma GrownConsumed(c: Site, d: Site, ask: string)
    requires c.markers != [] && Grown(c, d)
    ensures Consumed(d, ask) <==> Consumed(c, ask)
  {
    assert |d.markers| == |c.markers| ==> d.markers[..|c.markers|] == d.markers;
  }

  /** A request whose reservation was not acknowledged is not called, and yet counts as handled
      exactly when one of the pass's status writes lands: the reservation's own, its answer
      lost; or that of a backup request or of the pass's end, which carry it along. */
  lemma ReservationStoredUncalled(c: Site, name: string, p: Pass)
    requires var c0 := HappenAll(c, p.idle); c0.markers != [] && StartsOnCurrent(c0, name, Opened(c0, p))
    requires var c0 := HappenAll(c, p.idle);
             var l := Opened(c0, p);
             Store(c0, p.reserve, l.(st := Reservation(l.read, l.st, c0.now))).2 == Fault
    ensures var c0 := HappenAll(c, p.idle);
            var l := Opened(c0, p);
            var s1 := ReconcileRestore(c0, name, l, p);
            var s2 := ReconcileBackup(s1.c, s1.l, p);
            var d := Reconcile(c, name, p).0;
            && Unserviced(c0.log, d.log)
            && (Consumed(d, l.read.restoreAsk) <==>
                  || Lands(c0, p.reserve, l.version)
                  || (WantsBackup(s1.l) && Lands(s1.c, p.consume, l.version))
                  || (s2.end != Dies && Lands(s2.c, p.store, s2.l.version)))
  {
    var c0 := HappenAll(c, p.idle);
    var l := Opened(c0, p);
    var ask := l.read.restoreAsk;
    var l0 := l.(st := Reservation(l.read, l.st, c0.now));
    StoredIsConsumed(c0, p.reserve, l0, ask);
    StoreTells(c0, p.reserve, l0);
    var s1 := ReconcileRestore(c0, name, l, p);
    assert s1 == Step(Store(c0, p.reserve, l0).0, l0, Errs(0)) && !Consumed(c0, ask) by {
      hide HappenAll, Set, Remove, FollowRestore, Recover, CallSequence, Store, Opened;
    }
    hide HappenAll, ReconcileRestore, ReconcileBackup, Store, Unanswered, Reservation, Opened, Finish, Lands;
    UnansweredIsUnserviced(c0.log, s1.c.log);
    BackupConsumes(s1.c, s1.l, p, ask);
    var s2 := ReconcileBackup(s1.c, s1.l, p);
    UnservicedTwice(c0.log, s1.c.log, s2.c.log);
    if s2.end != Dies {
      FinishConsumes(s2.c, s2.l, s1.end, s2.end, p, ask);
      UnservicedTwice(c0.log, s2.c.log, Finish(s2.c, s2.l, s1.end, s2.end, p).0.log);
    }
  }

  /** The log went on, and no sequence was called. */
  ghost predicate Unserviced(before: seq<Entry>, after: seq<Entry>) {
    before <= after && forall i | |before| <= i < |after| :: !after[i].Called?
  }

  lemma UnservicedTwice(a: seq<Entry>, b: seq<Entry>, c: seq<Entry>)
    requires Unserviced(a, b) && Unserviced(b, c)
    ensures Unserviced(a, c)
  {
    forall i | |a| <= i < |c|
      ensures !c[i].Called?
    {
      assert i < |b| ==> c[i] == b[i];
    }
  }

  lemma UnansweredIsUnserviced(before: seq<Entry>, after: seq<Entry>)
    requires Unanswered(before, after)
    ensures Unserviced(before, after)
  {
    assert forall i | |before| <= i < |after| :: !Answers(after[i]);
  }

  lemma BackupConsumes(c: Site, l: Local, p: Pass, ask: string)
    requires c.markers != [] && l.version < |c.markers| && l.st.restore.handled == ask
    ensures var s := ReconcileBackup(c, l, p);
            && (Consumed(s.c, ask) <==> Consumed(c, ask) || (WantsBackup(l) && Lands(c, p.consume, l.version)))
            && s.c.markers != [] && s.l.version < |s.c.markers| && s.l.st.restore.handled == ask
            && Unserviced(c.log, s.c.log)
  {
    hide HappenAll, Store, TakeBackup, Set, Find, Lands, Unanswered, Consumed, Grown, BackupSelection.IsTerminalBackupPhase;
    if WantsBackup(l) {
      var l0 := l.(st := l.st.(backup := BackupStatus(l.read.backupAsk, "", "New")));
      StoredIsConsumed(c, p.consume, l0, ask);
      var (c1, l1, f) := Store(c, p.consume, l0);
      UnansweredIsUnserviced(c.log, c1.log);
      TakingConsumes(c1, l1, p, ask);
      UnservicedTwice(c.log, c1.log, TakeBackup(c1, l1, p).c.log);
    } else {
      BackupIsAside(c, l, p);
      var d := ReconcileBackup(c, l, p).c;
      GrownConsumed(c, d, ask);
      UnansweredIsUnserviced(c.log, d.log);
      GrownIsLonger(c, d);
    }
  }

  lemma GrownIsLonger(c: Site, d: Site)
    requires Grown(c, d)
    ensures |d.markers| >= |c.markers|
  {
  }

  lemma TakingConsumes(c: Site, l: Local, p: Pass, ask: string)
    requires c.markers != [] && l.version < |c.markers| && l.st.restore.handled == ask
    ensures var s := TakeBackup(c, l, p);
            && (Consumed(s.c, ask) <==> Consumed(c, ask))
            && s.c.markers != [] && s.l.version < |s.c.markers| && s.l.st.restore.handled == ask
            && Unserviced(c.log, s.c.log)
  {
    TakingIsOne(c, l, p);
    var a := At(c, p.trigger);
    GrownConsumed(c, a, ask);
    GrownIsLonger(c, a);
    UnansweredIsUnserviced(c.log, a.log);
    var s := TakeBackup(c, l, p);
    hide TakeBackup, HappenAll, Grown, Unanswered;
    assert Unserviced(a.log, s.c.log);
    UnservicedTwice(c.log, a.log, s.c.log);
  }

  lemma FinishConsumes(c: Site, l: Local, restoring: End, saving: End, p: Pass, ask: string)
    requires c.markers != [] && l.version < |c.markers| && l.st.restore.handled == ask
    ensures var d := Finish(c, l, restoring, saving, p).0;
            && (Consumed(d, ask) <==> Consumed(c, ask) || Lands(c, p.store, l.version))
            && Unserviced(c.log, d.log)
  {
    StoredIsConsumed(c, p.store, l, ask);
    UnansweredIsUnserviced(c.log, Store(c, p.store, l).0.log);
    hide Store, Lands, Unanswered, HappenAll;
  }

  /** Nobody else writing to the marker meanwhile, and no backup asked for, that is by the fates
      of two writes alone. */
  lemma ReservationStoredUncalledAlone(c: Site, name: string, p: Pass)
    requires c.markers != [] && StartsOnCurrent(c, name, Opened(c, p)) && !WantsBackup(Opened(c, p))
    requires p.idle == [] && p.reserve.before == [] && p.store.before == [] && Alive(p.getBackup) && p.getBackup.before == []
    requires p.reserve.fate == Refused || p.reserve.fate == Lost
    ensures var d := Reconcile(c, name, p).0;
            && Unserviced(c.log, d.log)
            && (Consumed(d, Opened(c, p).read.restoreAsk) <==>
                  p.reserve.fate == Lost || TakesEffect(p.store))
  {
    assert forall d: Site :: HappenAll(d, []) == d;
    var l := Opened(c, p);
    var l0 := l.(st := Reservation(l.read, l.st, c.now));
    NotReserved(c, name, l, p);
    ReservationStoredUncalled(c, name, p);
    var s1 := ReconcileRestore(c, name, l, p);
    NoBackupMeanwhile(s1.c, s1.l, p);
    hide HappenAll, Reconcile, ReconcileRestore, ReconcileBackup, Opened, Reservation, Store;
  }

  lemma NotReserved(c: Site, name: string, l: Local, p: Pass)
    requires c.markers != [] && StartsOnCurrent(c, name, l) && p.reserve.before == []
    requires p.reserve.fate == Refused || p.reserve.fate == Lost
    ensures var l0 := l.(st := Reservation(l.read, l.st, c.now));
            var (d, l1, f) := Store(c, p.reserve, l0);
            && f == Fault && ReconcileRestore(c, name, l, p) == Step(d, l0, Errs(0))
            && l0.st.backup == l.st.backup && (p.reserve.fate == Refused ==> d == c)
  {
    hide FollowRestore, Recover, CallSequence, Set, Remove, Busy;
  }

  lemma NoBackupMeanwhile(c: Site, l: Local, p: Pass)
    requires !WantsBackup(l) && Alive(p.getBackup) && p.getBackup.before == []
    ensures var s := ReconcileBackup(c, l, p); s.c.markers == c.markers && s.l.version == l.version && s.end != Dies
  {
    hide Store, Set, Find, BackupSelection.IsTerminalBackupPhase;
  }
}
