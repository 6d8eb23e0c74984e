/**
 Volume safety across crashes: over every run for one request, with one controller, Flux
 is put back only if the data volume was never deleted, or the Restore made for the
 request has ended.
 */
module RestoreSafety {
  import opened Wrappers
  import opened Turns
  import BackupSelection
  import opened Conditions
  import opened RestoreWorld
  import opened RestoreSequence
  import opened RestoreController
  import opened RestoreOutcome

  /** A request: its nonce, the version of the marker it was posted at, how many restores
      there were then, and the vcluster's mode. */
  datatype Request = Request(ask: string, base: nat, earlier: nat, external: bool)

  // ---- what the log tells ----

  predicate HasCalled(log: seq<Entry>) {
    log != [] && (HasCalled(log[..|log| - 1]) || log[|log| - 1].Called?)
  }

  predicate HasDeleted(log: seq<Entry>) {
    log != [] && (HasDeleted(log[..|log| - 1]) || Deletes(log[|log| - 1]))
  }

  predicate Resumes(e: Entry) {
    e == PatchedHelmRelease(false) || e == PatchedKustomization(false)
  }

  /** Flux was put back after a volume was deleted. */
  predicate Reopened(log: seq<Entry>) {
    log != [] && (Reopened(log[..|log| - 1]) || (HasDeleted(log[..|log| - 1]) && Resumes(log[|log| - 1])))
  }

  lemma Snoc(log: seq<Entry>, e: Entry)
    ensures HasCalled(log + [e]) == (HasCalled(log) || e.Called?)
    ensures HasDeleted(log + [e]) == (HasDeleted(log) || Deletes(e))
    ensures Reopened(log + [e]) == (Reopened(log) || (HasDeleted(log) && Resumes(e)))
  {
    var l := log + [e];
    assert l[..|l| - 1] == log;
  }

  // ---- the invariant ----

  /** The restore made for the request, if there is one. */
  predicate IsNew(rs: seq<Restore>, q: Request, name: string) {
    |rs| > q.earlier && rs[q.earlier].name == name
  }

  predicate NewEnded(rs: seq<Restore>, q: Request) {
    |rs| > q.earlier && !IsActive(rs[q.earlier])
  }

  ghost predicate Restores(rs: seq<Restore>, called: bool, q: Request) {
    && q.earlier <= |rs| <= q.earlier + 1
    && (forall j | 0 <= j < q.earlier :: !IsActive(rs[j]))
    && (|rs| == q.earlier + 1 ==> called && forall j | 0 <= j < q.earlier :: rs[j].name != rs[q.earlier].name)
  }

  /** A status that may stand once the sequence was called: the request handled, its own
      restore followed if any. */
  predicate Mine(rs: seq<Restore>, q: Request, st: OpsStatus) {
    st.restore.handled != q.ask || st.restore.name == "" || IsNew(rs, q, st.restore.name)
  }

  ghost predicate Markers(ms: seq<Marker>, rs: seq<Restore>, called: bool, q: Request) {
    && q.base < |ms|
    && (forall i | q.base <= i < |ms| :: ms[i].restoreAsk == q.ask)
    && (forall i, j | q.base <= i <= j < |ms| && ms[i].status.restore.handled == q.ask :: ms[j].status.restore.handled == q.ask)
    && (called ==> ms[|ms| - 1].status.restore.handled == q.ask
                   && forall i | q.base <= i < |ms| :: Mine(rs, q, ms[i].status))
  }

  predicate Volumes(c: Site, q: Request) {
    && Volume(c, !q.external) == Gone
    && (!HasCalled(c.log) ==> !HasDeleted(c.log))
    && (HasDeleted(c.log) && Volume(c, q.external) == Bound ==> |c.restores| > q.earlier)
    && (HasDeleted(c.log) ==> c.helmSuspended || NewEnded(c.restores, q))
    && (Reopened(c.log) ==> NewEnded(c.restores, q))
  }

  ghost predicate Safe(c: Site, q: Request) {
    && Restores(c.restores, HasCalled(c.log), q)
    && Markers(c.markers, c.restores, HasCalled(c.log), q)
    && Volumes(c, q)
  }

  // ---- what the outside may do ----

  /** No other restore request, nothing rebuilt that is not the vcluster's own. */
  predicate Tame(e: Event, q: Request) {
    match e
    case RestoreAsked(_, _, _) => false
    case FluxRebuilds(external, _, _, _) => external == q.external
    case VeleroRebuilds(external, _, _, _) => external == q.external
    case _ => true
  }

  ghost predicate TameAll(es: seq<Event>, q: Request) {
    forall e | e in es :: Tame(e, q)
  }

  ghost predicate TameSequence(k: Calls, q: Request) {
    && TameAll(k.backup.before, q) && TameAll(k.suspendHelm.before, q) && TameAll(k.suspendKustomization.before, q)
    && TameAll(k.detectEtcd.before, q) && TameAll(k.detectControlPlane.before, q)
    && TameAll(k.selector.before, q) && TameAll(k.etcdSelector.before, q)
    && TameAll(k.deleteControlPlane.before, q) && TameAll(k.deleteEtcd.before, q) && TameAll(k.deleteVolume.before, q)
    && TameAll(k.resumeHelm.before, q) && TameAll(k.resumeKustomization.before, q) && TameAll(k.create.before, q)
    && k.deleteVolume.fate != Fate.Lost
  }

  /** A pass that reads the marker no older than the request, and whose volume deletion has
      no effect when it fails. */
  ghost predicate TamePass(p: Pass, q: Request) {
    && TameAll(p.idle, q) && (p.copy.Some? ==> p.copy.value >= q.base)
    && TameAll(p.reserve.before, q) && TameSequence(p.sequence, q)
    && TameAll(p.interruptedEtcd.before, q) && TameAll(p.interruptedControlPlane.before, q)
    && TameAll(p.interruptedVolume.before, q) && TameAll(p.interruptedList.before, q)
    && TameAll(p.getRestore.before, q) && TameAll(p.consume.before, q) && TameAll(p.trigger.before, q)
    && TameAll(p.getBackup.before, q) && TameAll(p.store.before, q)
  }

  // ---- events ----

  /** What later states keep of earlier ones. */
  ghost predicate Later(c: Site, d: Site, q: Request) {
    && |d.markers| >= |c.markers| && c.markers == d.markers[..|c.markers|]
    && |d.restores| >= |c.restores|
    && (|c.restores| > q.earlier ==> d.restores[q.earlier].name == c.restores[q.earlier].name)
    && (NewEnded(c.restores, q) ==> NewEnded(d.restores, q))
  }

  lemma LaterTwice(a: Site, b: Site, c: Site, q: Request)
    requires Later(a, b, q) && Later(b, c, q)
    ensures Later(a, c, q)
  {
    hide IsActive;
  }

  lemma {:induction false} NoneActive(restores: seq<Restore>)
    ensures FirstActive(restores) == None <==> forall i | 0 <= i < |restores| :: !IsActive(restores[i])
    ensures FirstActive(restores).Some? ==> FirstActive(restores).value in restores && IsActive(FirstActive(restores).value)
  {
    if restores == [] {
    } else {
      NoneActive(restores[1..]);
      assert forall i | 1 <= i < |restores| :: restores[i] == restores[1..][i - 1];
    }
  }

  /** Only the workloads, the volumes and the clock changed. */
  lemma OutsideOnly(c: Site, d: Site, q: Request)
    requires Safe(c, q) && Volumes(d, q)
    requires d.restores == c.restores && d.markers == c.markers && d.log == c.log
    ensures Safe(d, q) && Later(c, d, q)
  {
    hide HasCalled, HasDeleted, Reopened, IsActive, Restores, Markers, Volumes;
    assert d.markers[..|c.markers|] == c.markers;
  }

  lemma RebuildKeeps(c: Site, q: Request, external: bool, deployment: bool, statefulSet: bool, etcd: bool)
    requires Safe(c, q) && external == q.external
    requires HasDeleted(c.log) ==> |c.restores| > q.earlier
    ensures var d := Rebuilt(c, external, deployment, statefulSet, etcd);
            Safe(d, q) && Later(c, d, q) && d.log == c.log && d.helmSuspended == c.helmSuspended
  {
    hide HasCalled, HasDeleted, Reopened, IsActive, Restores, Markers;
    OutsideOnly(c, Rebuilt(c, external, deployment, statefulSet, etcd), q);
  }

  lemma MovedRestores(rs: seq<Restore>, called: bool, q: Request, i: nat, phase: string)
    requires Restores(rs, called, q) && i < |rs| && IsActive(rs[i])
    ensures var after := rs[i := rs[i].(phase := phase)];
            && Restores(after, called, q) && (NewEnded(rs, q) ==> NewEnded(after, q))
            && (|rs| > q.earlier ==> after[q.earlier].name == rs[q.earlier].name)
  {
    hide IsActive;
    var after := rs[i := rs[i].(phase := phase)];
    assert i == q.earlier;
    assert forall j | 0 <= j < q.earlier :: after[j] == rs[j];
  }

  lemma RestoreMoves(c: Site, q: Request, i: nat, phase: string)
    requires Safe(c, q)
    ensures var d := Happen(c, RestoreReaches(i, phase));
            Safe(d, q) && Later(c, d, q) && d.log == c.log && d.helmSuspended == c.helmSuspended
  {
    SameIsLater(c, q);
    hide HasCalled, HasDeleted, Reopened, IsActive, Restores, Volume, Markers, NewEnded;
    if i < |c.restores| && IsActive(c.restores[i]) {
      MovedRestores(c.restores, HasCalled(c.log), q, i, phase);
      var d := Happen(c, RestoreReaches(i, phase));
      SameMarkers(c.markers, c.restores, d.restores, HasCalled(c.log), q);
      SameVolume(c, d, q.external);
      SameVolume(c, d, !q.external);
    }
  }

  lemma SameMarkers(ms: seq<Marker>, rs: seq<Restore>, after: seq<Restore>, called: bool, q: Request)
    requires Markers(ms, rs, called, q) && |after| == |rs|
    requires |rs| > q.earlier ==> after[q.earlier].name == rs[q.earlier].name
    ensures Markers(ms, after, called, q)
  {
  }

  /** A new version of the marker for the same request, with a status that may stand. */
  lemma MarkerAdded(ms: seq<Marker>, rs: seq<Restore>, called: bool, q: Request, m: Marker)
    requires Markers(ms, rs, called, q) && m.restoreAsk == q.ask
    requires ms[|ms| - 1].status.restore.handled == q.ask ==> m.status.restore.handled == q.ask
    requires called ==> m.status.restore.handled == q.ask && Mine(rs, q, m.status)
    ensures Markers(ms + [m], rs, called, q)
  {
    hide Mine;
  }

  lemma VersionAdded(c: Site, q: Request, m: Marker)
    requires Safe(c, q) && m.restoreAsk == q.ask
    requires c.markers[|c.markers| - 1].status.restore.handled == q.ask ==> m.status.restore.handled == q.ask
    requires HasCalled(c.log) ==> m.status.restore.handled == q.ask && Mine(c.restores, q, m.status)
    ensures var d := c.(markers := c.markers + [m]);
            Safe(d, q) && Later(c, d, q)
  {
    MarkerAdded(c.markers, c.restores, HasCalled(c.log), q, m);
    hide HasCalled, HasDeleted, Reopened, IsActive, Restores, Markers, Mine, Volume;
    var d := c.(markers := c.markers + [m]);
    SameVolume(c, d, q.external);
    SameVolume(c, d, !q.external);
    assert d.markers[..|c.markers|] == c.markers;
  }

  lemma AskedKeeps(c: Site, q: Request, ask: string)
    requires Safe(c, q)
    ensures var d := Happen(c, BackupAsked(ask));
            Safe(d, q) && Later(c, d, q) && d.log == c.log && d.helmSuspended == c.helmSuspended
  {
    hide HasCalled, Restores, Volumes;
    var last := c.markers[|c.markers| - 1];
    VersionAdded(c, q, last.(backupAsk := ask));
  }

  lemma ReleaseKeeps(c: Site, q: Request, external: bool)
    requires Safe(c, q)
    ensures var d := Happen(c, VolumeReleased(external));
            Safe(d, q) && Later(c, d, q) && d.log == c.log && d.helmSuspended == c.helmSuspended
  {
    hide HasCalled, HasDeleted, Reopened, IsActive, Restores, Markers;
    OutsideOnly(c, Happen(c, VolumeReleased(external)), q);
  }

  lemma QuietKeeps(c: Site, q: Request, e: Event)
    requires Safe(c, q) && (e.Tick? || e.BackupReaches? || e.Restarted?)
    ensures var d := Happen(c, e);
            Safe(d, q) && Later(c, d, q) && d.log == c.log && d.helmSuspended == c.helmSuspended
  {
    hide HasCalled, HasDeleted, Reopened, IsActive, Restores, Markers;
    OutsideOnly(c, Happen(c, e), q);
  }

  lemma EventIsSafe(c: Site, q: Request, e: Event)
    requires Safe(c, q) && Tame(e, q)
    ensures var d := Happen(c, e);
            Safe(d, q) && Later(c, d, q) && d.log == c.log && d.helmSuspended == c.helmSuspended
  {
    match e
    case BackupAsked(ask) => AskedKeeps(c, q, ask);
    case RestoreReaches(i, phase) => RestoreMoves(c, q, i, phase);
    case VolumeReleased(external) => ReleaseKeeps(c, q, external);
    case VeleroRebuilds(external, deployment, statefulSet, etcd) =>
      VeleroKeeps(c, q, e);
    case FluxRebuilds(external, deployment, statefulSet, etcd) =>
      FluxKeeps(c, q, e);
    case Tick(_) => QuietKeeps(c, q, e);
    case BackupReaches(_, _) => QuietKeeps(c, q, e);
    case Restarted => QuietKeeps(c, q, e);
  }

  lemma SameIsLater(c: Site, q: Request)
    ensures Later(c, c, q)
  {
  }

  lemma VeleroKeeps(c: Site, q: Request, e: Event)
    requires Safe(c, q) && e.VeleroRebuilds? && Tame(e, q)
    ensures var d := Happen(c, e);
            Safe(d, q) && Later(c, d, q) && d.log == c.log && d.helmSuspended == c.helmSuspended
  {
    SameIsLater(c, q);
    NoneActive(c.restores);
    hide HasCalled, HasDeleted, Reopened, IsActive, Markers, Volumes, FirstActive, Rebuilt, Later;
    if FirstActive(c.restores).Some? {
      RebuildKeeps(c, q, e.external, e.deployment, e.statefulSet, e.etcd);
    }
  }

  lemma FluxKeeps(c: Site, q: Request, e: Event)
    requires Safe(c, q) && e.FluxRebuilds? && Tame(e, q)
    ensures var d := Happen(c, e);
            Safe(d, q) && Later(c, d, q) && d.log == c.log && d.helmSuspended == c.helmSuspended
  {
    SameIsLater(c, q);
    hide HasCalled, HasDeleted, Reopened, IsActive, Markers, Restores, Rebuilt, Later;
    if !c.helmSuspended {
      RebuildKeeps(c, q, e.external, e.deployment, e.statefulSet, e.etcd);
    }
  }

  lemma {:induction false} EventsAreSafe(c: Site, q: Request, es: seq<Event>)
    requires Safe(c, q) && TameAll(es, q)
    ensures var d := HappenAll(c, es);
            Safe(d, q) && Later(c, d, q) && d.log == c.log && d.helmSuspended == c.helmSuspended
  {
    SameIsLater(c, q);
    hide Safe, Happen, Tame, Later;
    if es == [] {
    } else {
      EventsAreSafe(c, q, es[..|es| - 1]);
      var d := HappenAll(c, es[..|es| - 1]);
      EventIsSafe(d, q, es[|es| - 1]);
      LaterTwice(c, d, Happen(d, es[|es| - 1]), q);
    }
  }

  // ---- calls ----

  /** Flux may be put back: the volume was not deleted, or the restore has ended. */
  predicate MayResume(c: Site, q: Request) {
    HasDeleted(c.log) ==> NewEnded(c.restores, q)
  }

  /** A call that neither called, nor deleted, nor created. */
  ghost predicate Mild(c: Site, d: Site, q: Request) {
    && Later(c, d, q)
    && HasCalled(d.log) == HasCalled(c.log) && HasDeleted(d.log) == HasDeleted(c.log) && |d.restores| == |c.restores|
  }

  lemma TurnIsSafe(c: Site, q: Request, t: Turn)
    requires Safe(c, q) && TameAll(t.before, q)
    ensures var d := At(c, t);
            Safe(d, q) && Mild(c, d, q) && d.log == c.log && d.helmSuspended == c.helmSuspended
  {
    EventsAreSafe(c, q, t.before);
    SameCount(c, q, t.before);
  }

  lemma EventCreatesNone(c: Site, e: Event)
    ensures |Happen(c, e).restores| == |c.restores|
  {
    hide IsActive, FirstActive, Volume, Rebuilt, WithVolume;
    match e
    case VeleroRebuilds(x, a, b, etcd) => RebuiltSame(c, x, a, b, etcd);
    case FluxRebuilds(x, a, b, etcd) => RebuiltSame(c, x, a, b, etcd);
    case VolumeReleased(x) => ReleasedSame(c, x);
    case _ =>
  }

  lemma RebuiltSame(c: Site, x: bool, a: bool, b: bool, etcd: bool)
    ensures Rebuilt(c, x, a, b, etcd).restores == c.restores
  {
  }

  lemma ReleasedSame(c: Site, x: bool)
    ensures WithVolume(c, x, Gone).restores == c.restores
  {
  }

  lemma {:induction false} SameCount(c: Site, q: Request, es: seq<Event>)
    ensures |HappenAll(c, es).restores| == |c.restores|
  {
    hide Happen;
    if es == [] {
    } else {
      SameCount(c, q, es[..|es| - 1]);
      EventCreatesNone(HappenAll(c, es[..|es| - 1]), es[|es| - 1]);
    }
  }

  lemma MildTwice(a: Site, b: Site, c: Site, q: Request)
    requires Mild(a, b, q) && Mild(b, c, q)
    ensures Mild(a, c, q)
  {
    LaterTwice(a, b, c, q);
  }

  /** A call that leaves restores, markers and volumes alone, with the entry it may log. */
  lemma CallIsSafe(c: Site, q: Request, t: Turn, d: Site, e: Option<Entry>)
    requires Safe(c, q) && TameAll(t.before, q)
    requires e.Some? ==> !e.value.Called? && !Deletes(e.value) && (Resumes(e.value) ==> MayResume(c, q))
    requires var a := At(c, t);
             && d == a.(helmSuspended := d.helmSuspended, kustomizationSuspended := d.kustomizationSuspended,
                        deployment := d.deployment, statefulSet := d.statefulSet, etcd := d.etcd,
                        backups := d.backups, log := a.log + if e.Some? then [e.value] else [])
             && (d.helmSuspended == a.helmSuspended || e == Some(PatchedHelmRelease(d.helmSuspended)))
    ensures Safe(d, q) && Mild(c, d, q)
    ensures e == None || !e.value.PatchedHelmRelease? ==> d.helmSuspended == c.helmSuspended
  {
    TurnIsSafe(c, q, t);
    var a := At(c, t);
    hide HappenAll, HasDeleted, HasCalled, Reopened, IsActive, Restores, Markers, Volume;
    if e.Some? {
      Snoc(a.log, e.value);
    } else {
      assert a.log + [] == a.log;
    }
    SameVolume(a, d, q.external);
    SameVolume(a, d, !q.external);
    assert d.markers[..|a.markers|] == a.markers;
    MildTwice(c, a, d, q);
  }

  lemma MayStill(c: Site, d: Site, q: Request)
    requires Mild(c, d, q)
    ensures MayResume(c, q) ==> MayResume(d, q)
  {
  }

  lemma FluxIsSafe(c: Site, q: Request, helm: Turn, kustomization: Turn, suspend: bool)
    requires Safe(c, q) && TameAll(helm.before, q) && TameAll(kustomization.before, q) && (!suspend ==> MayResume(c, q))
    ensures var (d, f) := SetFluxSuspend(c, helm, kustomization, suspend);
            Safe(d, q) && Mild(c, d, q) && (f == Fine ==> d.helmSuspended == suspend)
  {
    hide HappenAll, Safe, Mild, MayResume, TameAll;
    var (c1, f) := PatchHelmRelease(c, helm, suspend);
    CallIsSafe(c, q, helm, c1, if TakesEffect(helm) then Some(PatchedHelmRelease(suspend)) else None);
    if f == Fine {
      MayStill(c, c1, q);
      var c2 := PatchKustomization(c1, kustomization, suspend).0;
      CallIsSafe(c1, q, kustomization, c2, if TakesEffect(kustomization) then Some(PatchedKustomization(suspend)) else None);
      MildTwice(c, c1, c2, q);
    }
  }

  // ---- the sequence ----

  /** Inside the call, nothing deleted nor created yet. */
  ghost predicate InCall(c: Site, q: Request) {
    Safe(c, q) && HasCalled(c.log) && !HasDeleted(c.log) && |c.restores| == q.earlier
  }

  /** What the sequence leaves. */
  ghost predicate Ended(c: Site, g: Go, q: Request) {
    && Safe(g.c, q) && HasCalled(g.c.log) && Later(c, g.c, q)
    && (g.r.Made? ==> IsNew(g.c.restores, q, g.r.name))
  }

  lemma StillInCall(c: Site, d: Site, q: Request)
    requires InCall(c, q) && Safe(d, q) && Mild(c, d, q)
    ensures InCall(d, q)
  {
  }

  lemma AbortIsSafe(c: Site, q: Request, k: Calls)
    requires InCall(c, q) && TameSequence(k, q)
    ensures Ended(c, Abort(c, k), q)
  {
    hide TameAll, SetFluxSuspend, Safe, Later, HasCalled, HasDeleted;
    FluxIsSafe(c, q, k.resumeHelm, k.resumeKustomization, false);
  }

  lemma {:induction false} Unnamed(rs: seq<Restore>, name: string)
    ensures Named(rs, name) == None <==> forall i | 0 <= i < |rs| :: rs[i].name != name
    ensures Named(rs, name).Some? ==> Named(rs, name).value in rs && Named(rs, name).value.name == name
  {
    if rs == [] {
    } else {
      Unnamed(rs[1..], name);
      assert forall i | 1 <= i < |rs| :: rs[i] == rs[1..][i - 1];
    }
  }

  lemma RestoreAdded(c: Site, q: Request, name: string, from: string)
    requires Safe(c, q) && HasCalled(c.log) && |c.restores| == q.earlier && Named(c.restores, name) == None
    ensures var d := Logged(c.(restores := c.restores + [Restore(name, "")]), CreatedRestore(name, from));
            Safe(d, q) && HasCalled(d.log) && Later(c, d, q) && IsNew(d.restores, q, name)
  {
    Unnamed(c.restores, name);
    Snoc(c.log, CreatedRestore(name, from));
    hide HasCalled, HasDeleted, Reopened, IsActive, Named, Volume;
    var d := Logged(c.(restores := c.restores + [Restore(name, "")]), CreatedRestore(name, from));
    SameVolume(c, d, q.external);
    SameVolume(c, d, !q.external);
    assert d.markers[..|c.markers|] == c.markers;
    assert forall j | 0 <= j < q.earlier :: d.restores[j] == c.restores[j];
  }

  lemma CreateIsSafe(c: Site, q: Request, from: string, k: Calls)
    requires Safe(c, q) && HasCalled(c.log) && |c.restores| == q.earlier && TameSequence(k, q)
    ensures Ended(c, CreateStage(c, from, k), q)
  {
    TurnIsSafe(c, q, k.create);
    hide HappenAll, Safe, HasCalled, HasDeleted, Named, TameAll, IsActive;
    var c1 := At(c, k.create);
    if TakesEffect(k.create) && Named(c1.restores, k.name) == None {
      RestoreAdded(c1, q, k.name, from);
      LaterTwice(c, c1, CreateRestore(c, k.create, k.name, from).0, q);
    }
  }

  lemma {:induction false} ReopenedAfterDeletion(log: seq<Entry>)
    ensures Reopened(log) ==> HasDeleted(log)
  {
    if log == [] {
    } else {
      ReopenedAfterDeletion(log[..|log| - 1]);
    }
  }

  lemma DeletionIsSafe(c: Site, q: Request, external: bool)
    requires InCall(c, q) && c.helmSuspended && Volume(c, external) != Gone
    ensures var d := Logged(WithVolume(c, external, Terminating), DeletedVolume(external));
            Safe(d, q) && HasCalled(d.log) && Later(c, d, q) && |d.restores| == q.earlier
  {
    Snoc(c.log, DeletedVolume(external));
    ReopenedAfterDeletion(c.log);
    hide HasCalled, HasDeleted, Reopened, IsActive, Restores, Markers;
    var d := Logged(WithVolume(c, external, Terminating), DeletedVolume(external));
    assert external == q.external;
    assert d.markers[..|c.markers|] == c.markers;
  }

  lemma VolumeIsSafe(c: Site, q: Request, topo: Topology, from: string, k: Calls)
    requires InCall(c, q) && c.helmSuspended && TameSequence(k, q)
    ensures Ended(c, VolumeStage(c, topo, from, k), q)
  {
    TurnIsSafe(c, q, k.deleteVolume);
    hide HappenAll, Safe, HasCalled, HasDeleted, TameAll, Abort, CreateStage, Volume, WithVolume;
    var c1 := At(c, k.deleteVolume);
    StillInCall(c, c1, q);
    var (c2, v) := DeleteVolume(c, k.deleteVolume, topo.external);
    if v == VolumeDeleted {
      DeletionIsSafe(c1, q, topo.external);
      CreateIsSafe(c2, q, from, k);
      LaterTwice(c, c1, c2, q);
      LaterTwice(c, c2, CreateStage(c2, from, k).c, q);
    } else if v == VolumeNotFound {
      CreateIsSafe(c2, q, from, k);
      LaterTwice(c, c2, CreateStage(c2, from, k).c, q);
    } else if v == VolumeKept {
      AbortIsSafe(c2, q, k);
      LaterTwice(c, c2, Abort(c2, k).c, q);
    }
  }

  lemma DetectIsSafe(c: Site, q: Request, etcd: Turn, controlPlane: Turn)
    requires Safe(c, q) && TameAll(etcd.before, q) && TameAll(controlPlane.before, q)
    ensures var d := Detect(c, etcd, controlPlane).0;
            Safe(d, q) && Mild(c, d, q) && d.helmSuspended == c.helmSuspended && d.log == c.log
  {
    hide HappenAll, Safe, Later, HasDeleted, HasCalled, TameAll;
    TurnIsSafe(c, q, etcd);
    var c1 := At(c, etcd);
    TurnIsSafe(c1, q, controlPlane);
    MildTwice(c, c1, At(c1, controlPlane), q);
  }

  lemma SelectorsAreSafe(c: Site, q: Request, k: Calls, external: bool)
    requires Safe(c, q) && TameSequence(k, q)
    ensures var c1 := At(c, k.selector);
            var c2 := if external then At(c1, k.etcdSelector) else c1;
            && Safe(c1, q) && Mild(c, c1, q) && c1.helmSuspended == c.helmSuspended
            && Safe(c2, q) && Mild(c, c2, q) && c2.helmSuspended == c.helmSuspended
  {
    hide HappenAll, Safe, Later, HasDeleted, HasCalled, TameAll;
    TurnIsSafe(c, q, k.selector);
    var c1 := At(c, k.selector);
    if external {
      TurnIsSafe(c1, q, k.etcdSelector);
      MildTwice(c, c1, At(c1, k.etcdSelector), q);
    }
  }

  lemma QuiesceIsSafe(c: Site, q: Request, k: Calls)
    requires Safe(c, q) && TameSequence(k, q)
    ensures var d := Quiesce(c, k).0;
            Safe(d, q) && Mild(c, d, q) && d.helmSuspended == c.helmSuspended
  {
    hide HappenAll, Safe, Mild, TameAll, Detect, DeleteControlPlane, DeleteEtcd;
    DetectIsSafe(c, q, k.detectEtcd, k.detectControlPlane);
    var (c1, f1, topo) := Detect(c, k.detectEtcd, k.detectControlPlane);
    SelectorsAreSafe(c1, q, k, topo.external);
    var c2 := At(c1, k.selector);
    MildTwice(c, c1, c2, q);
    var c3 := if topo.external then At(c2, k.etcdSelector) else c2;
    MildTwice(c, c1, c3, q);
    WorkloadsAreSafe(c3, q, k, topo.deployment);
    var c4 := DeleteControlPlane(c3, k.deleteControlPlane, topo.deployment).0;
    MildTwice(c, c3, c4, q);
    MildTwice(c, c3, DeleteEtcd(c4, k.deleteEtcd).0, q);
  }

  lemma WorkloadsAreSafe(c: Site, q: Request, k: Calls, deployment: bool)
    requires Safe(c, q) && TameSequence(k, q)
    ensures var c1 := DeleteControlPlane(c, k.deleteControlPlane, deployment).0;
            var c2 := DeleteEtcd(c1, k.deleteEtcd).0;
            && Safe(c1, q) && Mild(c, c1, q) && c1.helmSuspended == c.helmSuspended
            && Safe(c2, q) && Mild(c, c2, q) && c2.helmSuspended == c.helmSuspended
  {
    hide HappenAll, Safe, Mild, MayResume, TameAll;
    var c1 := DeleteControlPlane(c, k.deleteControlPlane, deployment).0;
    var e := if deployment then DeletedDeployment else DeletedStatefulSet;
    CallIsSafe(c, q, k.deleteControlPlane, c1, if TakesEffect(k.deleteControlPlane) then Some(e) else None);
    var c2 := DeleteEtcd(c1, k.deleteEtcd).0;
    CallIsSafe(c1, q, k.deleteEtcd, c2, if TakesEffect(k.deleteEtcd) then Some(DeletedEtcd) else None);
    MildTwice(c, c1, c2, q);
  }

  lemma QuiesceStageIsSafe(c: Site, q: Request, from: string, k: Calls)
    requires InCall(c, q) && c.helmSuspended && TameSequence(k, q)
    ensures Ended(c, QuiesceStage(c, from, k), q)
  {
    QuiesceIsSafe(c, q, k);
    hide Quiesce, VolumeStage, Abort, Safe, HasCalled, HasDeleted, TameSequence;
    var (c1, f, topo) := Quiesce(c, k);
    StillInCall(c, c1, q);
    if f == Fine {
      VolumeIsSafe(c1, q, topo, from, k);
      LaterTwice(c, c1, VolumeStage(c1, topo, from, k).c, q);
    } else if f == Fault {
      AbortIsSafe(c1, q, k);
      LaterTwice(c, c1, Abort(c1, k).c, q);
    }
  }

  lemma SuspendStageIsSafe(c: Site, q: Request, from: string, k: Calls)
    requires InCall(c, q) && TameSequence(k, q)
    ensures Ended(c, SuspendStage(c, from, k), q)
  {
    FluxIsSafe(c, q, k.suspendHelm, k.suspendKustomization, true);
    hide SetFluxSuspend, QuiesceStage, Safe, HasCalled, HasDeleted, TameSequence;
    var (c1, f) := SetFluxSuspend(c, k.suspendHelm, k.suspendKustomization, true);
    StillInCall(c, c1, q);
    if f == Fine {
      QuiesceStageIsSafe(c1, q, from, k);
      LaterTwice(c, c1, QuiesceStage(c1, from, k).c, q);
    }
  }

  lemma ReadIsSafe(c: Site, q: Request, t: Turn, name: string)
    requires Safe(c, q) && TameAll(t.before, q)
    ensures var d := GetBackupPhase(c, t, name).0; Safe(d, q) && Mild(c, d, q)
  {
    hide HappenAll, Safe, Mild, MayResume, TameAll;
    var (d, phase) := GetBackupPhase(c, t, name);
    CallIsSafe(c, q, t, d, if phase.Some? then Some(ReadBackup(name, phase.value)) else None);
  }

  lemma CreateSequenceIsSafe(c: Site, q: Request, name: string, backup: string, target: string, k: Calls)
    requires InCall(c, q) && TameSequence(k, q)
    ensures Ended(c, Create(c, name, backup, target, k), q)
  {
    SameIsLater(c, q);
    ReadIsSafe(c, q, k.backup, backup);
    hide GetBackupPhase, SuspendStage, Attemptable, Safe, HasCalled, HasDeleted, TameSequence;
    var (c1, phase) := GetBackupPhase(c, k.backup, backup);
    StillInCall(c, c1, q);
    if phase == Some("Completed") {
      SuspendStageIsSafe(c1, q, backup, k);
      LaterTwice(c, c1, SuspendStage(c1, backup, k).c, q);
    }
  }

  // ---- the controller ----

  /** What a pass holds in memory is a version of the marker for the request, and the
      status it makes of it may stand. */
  ghost predicate Held(c: Site, q: Request, l: Local) {
    && q.base <= l.version < |c.markers| && l.read.restoreAsk == q.ask
    && (l.st.restore.handled == q.ask || l.st.restore.handled == c.markers[l.version].status.restore.handled)
    && (HasCalled(c.log) && l.version + 1 == |c.markers| ==> Mine(c.restores, q, l.st))
  }

  /** The status is still as the marker was read. */
  predicate AsRead(c: Site, l: Local) {
    l.version < |c.markers| && c.markers[l.version] == l.read && l.st == l.read.status
  }

  lemma HeldLater(c: Site, d: Site, q: Request, l: Local)
    requires Held(c, q, l) && Later(c, d, q) && HasCalled(d.log) == HasCalled(c.log)
    ensures Held(d, q, l)
  {
    hide HasCalled;
    assert c.markers[l.version] == d.markers[..|c.markers|][l.version];
  }

  lemma StoreIsSafe(c: Site, q: Request, t: Turn, l: Local)
    requires Safe(c, q) && Held(c, q, l) && TameAll(t.before, q)
    ensures var (d, l', f) := Store(c, t, l);
            && Safe(d, q) && Mild(c, d, q) && Held(d, q, l') && l'.st == l.st && l'.read == l.read
            && (f == Fine ==> l'.version == |d.markers| - 1 && d.markers[l'.version].status == l.st
                              && Current(At(c, t)) == At(c, t).markers[l.version])
  {
    TurnIsSafe(c, q, t);
    hide HappenAll, HasCalled, HasDeleted, Restores, Volumes, Mine, IsActive;
    var c1 := At(c, t);
    HeldLater(c, c1, q, l);
    var (d, f) := StoreStatus(c, t, l.version, l.st);
    if TakesEffect(t) && l.version + 1 == |c1.markers| {
      var last := c1.markers[|c1.markers| - 1];
      VersionAdded(c1, q, last.(status := l.st));
      LaterTwice(c, c1, d, q);
      HeldLater(c1, d, q, l);
    }
  }

  /** What a stage of a pass leaves. */
  ghost predicate Sound(s: Step, q: Request) {
    Safe(s.c, q) && (s.end != Dies ==> Held(s.c, q, s.l))
  }

  lemma Unchanged(c: Site, q: Request, l: Local, st: OpsStatus)
    requires Held(c, q, l) && st.restore.handled == l.st.restore.handled && st.restore.name == l.st.restore.name
    ensures Held(c, q, l.(st := st))
  {
    hide HasCalled;
  }

  /** A reservation only lands before the sequence was ever called. */
  lemma ReservedBefore(c: Site, q: Request, v: nat)
    requires Safe(c, q) && v + 1 == |c.markers| && c.markers[v].status.restore.handled != q.ask
    ensures !HasCalled(c.log) && !HasDeleted(c.log) && |c.restores| == q.earlier
  {
    hide HasCalled, HasDeleted, IsActive, Mine;
  }

  lemma CallRecorded(c: Site, q: Request)
    requires Safe(c, q) && !HasCalled(c.log) && |c.restores| == q.earlier
    requires var n := |c.markers| - 1;
             c.markers[n].status.restore.handled == q.ask && c.markers[n].status.restore.name == ""
             && n > q.base && c.markers[n - 1].status.restore.handled != q.ask
    ensures InCall(Logged(c, Called(q.ask)), q) && Later(c, Logged(c, Called(q.ask)), q)
  {
    Snoc(c.log, Called(q.ask));
    ReopenedAfterDeletion(c.log);
    hide HasCalled, HasDeleted, Reopened, IsActive, Volume;
    var d := Logged(c, Called(q.ask));
    SameVolume(c, d, q.external);
    SameVolume(c, d, !q.external);
    assert d.markers[..|c.markers|] == c.markers;
    forall i | q.base <= i < |d.markers|
      ensures Mine(d.restores, q, d.markers[i].status)
    {
      if i < |d.markers| - 1 {
        assert d.markers[i].status.restore.handled != q.ask;
      }
    }
  }

  lemma StartIsSafe(c: Site, q: Request, name: string, l: Local, p: Pass)
    requires Safe(c, q) && Held(c, q, l) && TamePass(p, q) && WantsRestore(l) && AsRead(c, l)
    ensures Sound(StartRestore(c, name, l, p), q)
  {
    hide HappenAll, HasCalled, HasDeleted, Safe, Later, Store, Create, TameSequence, TameAll, Set, Remove, Recorded;
    if Busy(l.st.restore) {
      Unchanged(c, q, l, WithCond(l.st, RestoreRejectedBusy, ConditionTrue, AlreadyRunning, c.now));
    } else if l.read.target != "" && l.read.target != name {
      Reheld(c, q, l, WithCond(WithRestore(l.st, l.st.restore.(handled := l.read.restoreAsk)),
                               Accepted, ConditionFalse, TargetOutsideMarker, c.now));
    } else {
      var l0 := l.(st := Reservation(l.read, l.st, c.now));
      Reheld(c, q, l, l0.st);
      StoreIsSafe(c, q, p.reserve, l0);
      var (c1, l1, f) := Store(c, p.reserve, l0);
      if f == Fine {
        ReservationLanded(c, q, l, l0, p.reserve);
        var c2 := Logged(c1, Called(q.ask));
        CreateSequenceIsSafe(c2, q, name, l.read.fromBackup, l.read.target, p.sequence);
        var g := Create(c2, name, l.read.fromBackup, l.read.target, p.sequence);
        CallHeld(c2, g, q, l1);
      }
    }
  }

  /** Handling the request can only land before the sequence was called. */
  lemma Reheld(c: Site, q: Request, l: Local, st: OpsStatus)
    requires Safe(c, q) && Held(c, q, l) && WantsRestore(l) && AsRead(c, l) && st.restore.handled == q.ask
    ensures Held(c, q, l.(st := st))
  {
    hide HasCalled, HasDeleted, Restores, Volumes;
  }

  lemma ReservationLanded(c: Site, q: Request, l: Local, l0: Local, t: Turn)
    requires Safe(c, q) && TameAll(t.before, q) && Held(c, q, l0) && WantsRestore(l) && AsRead(c, l)
    requires l0 == l.(st := Reservation(l.read, l.st, c.now)) && Store(c, t, l0).2 == Fine
    ensures var c1 := Store(c, t, l0).0;
            InCall(Logged(c1, Called(q.ask)), q) && Later(c1, Logged(c1, Called(q.ask)), q)
  {
    TurnIsSafe(c, q, t);
    StoreIsSafe(c, q, t, l0);
    hide HappenAll, HasCalled, HasDeleted, Restores, Markers, Volumes, IsActive, Set, Remove;
    var a := At(c, t);
    assert a.markers[..|c.markers|][l.version] == c.markers[l.version];
    ReservedBefore(a, q, l.version);
    var c1 := Store(c, t, l0).0;
    assert c1.markers == a.markers + [Current(a).(status := l0.st)];
    assert c1.markers[|c1.markers| - 2] == a.markers[l.version];
    CallRecorded(c1, q);
  }

  lemma CallHeld(c: Site, g: Go, q: Request, l: Local)
    requires Ended(c, g, q) && InCall(c, q) && q.base <= l.version < |c.markers| && l.read.restoreAsk == q.ask
    requires l.st.restore.handled == q.ask && l.st.restore.name == ""
    ensures Held(g.c, q, l.(st := Recorded(l.st, g.r, g.c.now)))
  {
    hide Safe, HasCalled, HasDeleted, Set, Find;
  }

  // ---- recovering and following ----

  /** A pass that acts on what it read: if the sequence was called, the status is its own. */
  lemma ReadIsMine(c: Site, q: Request, l: Local)
    requires Safe(c, q) && Held(c, q, l) && AsRead(c, l) && HasCalled(c.log)
    ensures Mine(c.restores, q, l.st)
  {
    hide HasCalled, HasDeleted, Restores, Volumes, Mine;
  }

  /** What an interrupted sequence left, read through a topology detected again: a bound
      volume was not deleted, or the restore for the request exists; an active restore is
      the request's own. */
  lemma InspectionTells(c: Site, q: Request, p: Pass)
    requires Safe(c, q) && TamePass(p, q)
    ensures var (d, f, seen) := InspectInterrupted(c, p);
            && Safe(d, q) && Mild(c, d, q)
            && (f == Fine && seen.active.Some? ==> IsNew(d.restores, q, seen.active.value.name))
            && (f == Fine && seen.active == None && !seen.volumeGone ==> MayResume(d, q))
  {
    DetectIsSafe(c, q, p.interruptedEtcd, p.interruptedControlPlane);
    hide HappenAll, HasCalled, HasDeleted, Safe, Later, Detect, TameAll, IsActive, FirstActive, Volume, TameSequence, MayResume,
         IsNew;
    var (c1, f1, topo) := Detect(c, p.interruptedEtcd, p.interruptedControlPlane);
    TurnIsSafe(c1, q, p.interruptedVolume);
    var c2 := At(c1, p.interruptedVolume);
    MildTwice(c, c1, c2, q);
    TurnIsSafe(c2, q, p.interruptedList);
    var c3 := At(c2, p.interruptedList);
    MildTwice(c, c2, c3, q);
    ListTells(c2, c3, q, topo.external);
  }

  /** A volume read bound, then no restore found running. */
  lemma ListTells(c: Site, d: Site, q: Request, external: bool)
    requires Safe(c, q) && Safe(d, q) && Mild(c, d, q)
    ensures FirstActive(d.restores).Some? ==> IsNew(d.restores, q, FirstActive(d.restores).value.name)
    ensures FirstActive(d.restores) == None && Volume(c, external) == Bound ==> MayResume(d, q)
  {
    NoneActive(d.restores);
    hide HasCalled, HasDeleted, Reopened, IsActive, FirstActive, Volume, Markers;
    assert external == q.external || Volume(c, external) == Gone;
  }

  /** Where recovering takes the site, and what it makes of the record. */
  lemma RecoverIs(c: Site, l: Local, p: Pass)
    ensures var (c1, f, seen) := InspectInterrupted(c, p);
            var s := Recover(c, l, p);
            if f != Fine then s.c == c1 && s.l == l
            else if seen.active.Some? then
              s.c == c1 && s.l == l.(st := Taken(l.st, seen.active.value, c1.now))
            else
              && s.c == (if seen.volumeGone then c1
                         else SetFluxSuspend(c1, p.sequence.resumeHelm, p.sequence.resumeKustomization, false).0)
              && s.l == l.(st := s.l.st)
              && s.l.st.restore.handled == l.st.restore.handled && s.l.st.restore.name == l.st.restore.name
  {
    hide InspectInterrupted, SetFluxSuspend, Set, Find;
  }

  /** The status, with a restore found at work taken over. */
  function Taken(st: OpsStatus, r: Restore, now: int): OpsStatus {
    WithCond(WithRestore(st, st.restore.(name := r.name, phase := r.phase)), RestoreInProgress, ConditionTrue, Adopted, now)
  }

  lemma RecoverIsSafe(c: Site, q: Request, l: Local, p: Pass)
    requires Safe(c, q) && Held(c, q, l) && TamePass(p, q)
    ensures Sound(Recover(c, l, p), q)
  {
    InspectionTells(c, q, p);
    RecoverIs(c, l, p);
    var s := Recover(c, l, p);
    hide HappenAll, HasCalled, HasDeleted, Safe, InspectInterrupted, SetFluxSuspend, TameAll, Taken, MayResume, Later,
         IsNew, Held, Recover;
    var (c1, f, seen) := InspectInterrupted(c, p);
    HeldLater(c, c1, q, l);
    if f == Fine {
      if seen.active.Some? {
        Adopts(c1, q, l, seen.active.value, c1.now);
      } else {
        if !seen.volumeGone {
          FluxIsSafe(c1, q, p.sequence.resumeHelm, p.sequence.resumeKustomization, false);
          HeldLater(c1, s.c, q, l);
        }
        Unchanged(s.c, q, l, s.l.st);
      }
    }
  }

  lemma Adopts(c: Site, q: Request, l: Local, r: Restore, now: int)
    requires Held(c, q, l) && IsNew(c.restores, q, r.name)
    ensures Held(c, q, l.(st := Taken(l.st, r, now)))
  {
    hide HasCalled, Set, Find;
  }

  lemma PhaseIsSafe(c: Site, q: Request, t: Turn, name: string)
    requires Safe(c, q) && TameAll(t.before, q)
    ensures var (d, phase) := GetRestorePhase(c, t, name);
            && Safe(d, q) && Mild(c, d, q)
            && (phase.Some? ==> Named(d.restores, name).Some?
                                && phase.value == if Named(d.restores, name).value.phase == "" then "New"
                                                  else Named(d.restores, name).value.phase)
  {
    hide HappenAll, Safe, Mild, MayResume, TameAll, Named;
    var (d, phase) := GetRestorePhase(c, t, name);
    CallIsSafe(c, q, t, d, if phase.Some? then Some(PolledRestore(name, phase.value)) else None);
  }

  /** The poll only puts Flux back after a restore that ended, and once the volume was
      deleted that restore is the request's. */
  lemma PollIsSafe(c: Site, q: Request, name: string, inPlace: bool, p: Pass)
    requires Safe(c, q) && TamePass(p, q)
    requires HasDeleted(c.log) ==> IsNew(c.restores, q, name)
    ensures var d := PollRestore(c, name, inPlace, p).0; Safe(d, q) && Mild(c, d, q)
  {
    PhaseIsSafe(c, q, p.getRestore, name);
    hide HappenAll, HasCalled, HasDeleted, Restores, Markers, Volumes, SetFluxSuspend, TameAll, TameSequence, Named, Mild,
         GetRestorePhase;
    var (c1, phase) := GetRestorePhase(c, p.getRestore, name);
    if phase.Some? && IsTerminalRestorePhase(phase.value) {
      EndedIsNew(c, c1, q, name, phase.value);
      FluxIsSafe(c1, q, p.sequence.resumeHelm, p.sequence.resumeKustomization, false);
      var c2 := SetFluxSuspend(c1, p.sequence.resumeHelm, p.sequence.resumeKustomization, false).0;
      MildTwice(c, c1, c2, q);
      Remembered(c2, q, c2.resolved + {name});
      MildTwice(c, c2, c2.(resolved := c2.resolved + {name}), q);
    }
  }

  lemma EndedIsNew(c: Site, d: Site, q: Request, name: string, phase: string)
    requires Safe(d, q) && Mild(c, d, q) && (HasDeleted(c.log) ==> IsNew(c.restores, q, name))
    requires Named(d.restores, name).Some? && IsTerminalRestorePhase(phase)
    requires phase == if Named(d.restores, name).value.phase == "" then "New" else Named(d.restores, name).value.phase
    ensures MayResume(d, q)
  {
    Unnamed(d.restores, name);
    hide HasCalled, HasDeleted, Markers, Volumes, Named;
  }

  lemma Remembered(c: Site, q: Request, resolved: set<string>)
    requires Safe(c, q)
    ensures var d := c.(resolved := resolved); Safe(d, q) && Mild(c, d, q)
  {
    hide HasCalled, HasDeleted, Reopened, IsActive, Restores, Markers;
    var d := c.(resolved := resolved);
    assert d.markers[..|c.markers|] == c.markers;
  }

  lemma {:induction false} DeletedMeansCalled(c: Site, q: Request)
    requires Safe(c, q) && HasDeleted(c.log)
    ensures HasCalled(c.log)
  {
    hide Restores, Markers, HasCalled, HasDeleted;
  }

  lemma FollowedName(c: Site, q: Request, l: Local)
    requires Safe(c, q) && Held(c, q, l) && AsRead(c, l) && q.ask != "" && !WantsRestore(l) && l.st.restore.name != ""
    ensures HasDeleted(c.log) ==> IsNew(c.restores, q, l.st.restore.name)
  {
    if HasDeleted(c.log) {
      DeletedMeansCalled(c, q);
      ReadIsMine(c, q, l);
      hide HasCalled, HasDeleted, Safe, IsNew;
    }
  }

  lemma FollowIsSafe(c: Site, q: Request, l: Local, p: Pass)
    requires Safe(c, q) && Held(c, q, l) && TamePass(p, q) && AsRead(c, l) && q.ask != ""
    requires !WantsRestore(l) && l.st.restore.name != ""
    ensures Sound(FollowRestore(c, l, p), q)
  {
    FollowedName(c, q, l);
    PollIsSafe(c, q, l.st.restore.name, l.st.restore.inPlace, p);
    hide HappenAll, HasCalled, HasDeleted, Safe, PollRestore, Later, IsNew, IsTerminalRestorePhase, Followed, TamePass, Held,
         AsRead, WantsRestore;
    var (c1, f, v) := PollRestore(c, l.st.restore.name, l.st.restore.inPlace, p);
    HeldLater(c, c1, q, l);
    FollowedKeepsName(l.st, v, c1.now);
    Unchanged(c1, q, l, Followed(l.st, v, c1.now).0);
  }

  lemma FollowedKeepsName(st: OpsStatus, v: View, now: int)
    ensures var st' := Followed(st, v, now).0;
            st'.restore.handled == st.restore.handled && st'.restore.name == st.restore.name
  {
    hide Set, Find;
  }

  lemma RestoreIsSafe(c: Site, q: Request, name: string, l: Local, p: Pass)
    requires Safe(c, q) && Held(c, q, l) && TamePass(p, q) && AsRead(c, l) && q.ask != ""
    ensures Sound(ReconcileRestore(c, name, l, p), q)
  {
    hide Safe, Held, TamePass, StartRestore, FollowRestore, Recover;
    if WantsRestore(l) {
      StartIsSafe(c, q, name, l, p);
    } else if l.st.restore.name != "" {
      FollowIsSafe(c, q, l, p);
    } else {
      RecoverIsSafe(c, q, l, p);
    }
  }

  // ---- the rest of the pass ----

  lemma TriggerIsSafe(c: Site, q: Request, t: Turn, ask: string, name: string)
    requires Safe(c, q) && TameAll(t.before, q)
    ensures var d := TriggerVeleroBackup(c, t, ask, name).0; Safe(d, q) && Mild(c, d, q)
  {
    hide HappenAll, Safe, Mild, MayResume, TameAll;
    var d := TriggerVeleroBackup(c, t, ask, name).0;
    CallIsSafe(c, q, t, d, if TakesEffect(t) then Some(TriggeredBackup(ask)) else None);
  }

  lemma BackupPartIsSafe(c: Site, q: Request, l: Local, p: Pass)
    requires Safe(c, q) && Held(c, q, l) && TamePass(p, q)
    ensures Sound(ReconcileBackup(c, l, p), q)
  {
    hide HappenAll, HasCalled, HasDeleted, Safe, Later, Store, TameSequence, TameAll, Set, Find, TriggerVeleroBackup,
         BackupSelection.IsTerminalBackupPhase;
    if WantsBackup(l) {
      var l0 := l.(st := l.st.(backup := BackupStatus(l.read.backupAsk, "", "New")));
      Unchanged(c, q, l, l0.st);
      StoreIsSafe(c, q, p.consume, l0);
      var (c1, l1, f) := Store(c, p.consume, l0);
      TriggerIsSafe(c1, q, p.trigger, l.read.backupAsk, p.backupName);
      HeldLater(c1, TriggerVeleroBackup(c1, p.trigger, l.read.backupAsk, p.backupName).0, q, l1);
    } else {
      ReadIsSafe(c, q, p.getBackup, l.st.backup.name);
      hide GetBackupPhase;
      HeldLater(c, GetBackupPhase(c, p.getBackup, l.st.backup.name).0, q, l);
    }
  }

  lemma PassIsSafe(c: Site, q: Request, name: string, p: Pass)
    requires Safe(c, q) && TamePass(p, q) && q.ask != ""
    ensures Safe(Reconcile(c, name, p).0, q)
  {
    EventsAreSafe(c, q, p.idle);
    var c0 := HappenAll(c, p.idle);
    OpenedIsHeld(c0, q, p);
    hide HappenAll, HasCalled, HasDeleted, Safe, Later, Store, TameSequence, TameAll, ReconcileRestore, ReconcileBackup, Held;
    var l := Opened(c0, p);
    RestoreIsSafe(c0, q, name, l, p);
    var s1 := ReconcileRestore(c0, name, l, p);
    Remembered(s1.c, q, {});
    if s1.end != Dies {
      BackupPartIsSafe(s1.c, q, s1.l, p);
      var s2 := ReconcileBackup(s1.c, s1.l, p);
      Remembered(s2.c, q, {});
      if s2.end != Dies {
        StoreIsSafe(s2.c, q, p.store, s2.l);
        Remembered(Store(s2.c, p.store, s2.l).0, q, {});
      }
    }
  }

  lemma OpenedIsHeld(c: Site, q: Request, p: Pass)
    requires Safe(c, q) && TamePass(p, q)
    ensures c.markers != [] && Held(c, q, Opened(c, p)) && AsRead(c, Opened(c, p))
  {
    hide HasCalled, HasDeleted, Restores, Volumes, Mine, TameAll, TameSequence;
  }

  // ---- whole runs ----

  /** A request just posted: not handled yet, no restore running, nothing deleted, and no
      stray volume that a topology read later could take for the vcluster's. */
  ghost predicate JustAsked(c: Site, q: Request) {
    && q.ask != "" && |c.markers| == q.base + 1 && |c.restores| == q.earlier && c.log == []
    && Current(c).restoreAsk == q.ask && Current(c).status.restore.handled != q.ask
    && (forall r | r in c.restores :: !IsActive(r))
    && Volume(c, !q.external) == Gone
  }

  lemma JustAskedIsSafe(c: Site, q: Request)
    requires JustAsked(c, q)
    ensures Safe(c, q)
  {
    hide IsActive;
  }

  lemma {:induction false} RunIsSafe(c: Site, q: Request, name: string, ps: seq<Pass>)
    requires Safe(c, q) && q.ask != "" && forall p | p in ps :: TamePass(p, q)
    ensures Safe(Run(c, name, ps), q)
  {
    hide Safe, TamePass, Reconcile;
    if ps == [] {
    } else {
      RunIsSafe(c, q, name, ps[..|ps| - 1]);
      PassIsSafe(Run(c, name, ps[..|ps| - 1]), q, name, ps[|ps| - 1]);
    }
  }

  /** Over every run for one request, crashes, stale reads and lost status writes included:
      if Flux was put back after the data volume was deleted, the restore made for the
      request has ended; and that restore is the only one made. */
  lemma VolumeSafety(c: Site, q: Request, name: string, ps: seq<Pass>)
    requires JustAsked(c, q) && forall p | p in ps :: TamePass(p, q)
    ensures var r := Run(c, name, ps);
            && (Reopened(r.log) ==> NewEnded(r.restores, q))
            && |r.restores| <= q.earlier + 1
  {
    JustAskedIsSafe(c, q);
    hide Run, TamePass, Reopened, IsActive, JustAsked;
    RunIsSafe(c, q, name, ps);
  }
}
