/**
 What the marker's history shows over runs: how long a resume is waited for, and a
 deferred request that is never honoured.
 */
module RestoreHistory {
  import opened Wrappers
  import opened Turns
  import BackupSelection
  import opened Conditions
  import opened RestoreWorld
  import opened RestoreSequence
  import opened RestoreController
  import opened RestoreAside
  import RestoreExclusion
  import VClusters

  // ---- when a restore was first seen ended ----

  /** A new request starts over. */
  predicate StartsOver(a: RestoreStatus, b: RestoreStatus) {
    b.handled != a.handled && b.name == "" && b.phase == "New" && b.firstTerminalAt == None
  }

  /** From one version to the next, the time the restore was first seen ended stays. */
  predicate KeepsFirst(a: RestoreStatus, b: RestoreStatus) {
    a.firstTerminalAt == None || b.firstTerminalAt == a.firstTerminalAt || StartsOver(a, b)
  }

  ghost predicate Steady(ms: seq<Marker>) {
    forall k | 0 <= k && k + 1 < |ms| :: KeepsFirst(ms[k].status.restore, ms[k + 1].status.restore)
  }

  ghost predicate Held(c: Site, l: Local) {
    && Steady(c.markers) && l.version < |c.markers|
    && (l.version + 1 == |c.markers| ==> KeepsFirst(c.markers[l.version].status.restore, l.st.restore))
  }

  /** The copy is one of the versions, and its status is as it was read. */
  predicate AsRead(c: Site, l: Local) {
    l.version < |c.markers| && c.markers[l.version] == l.read && l.st == l.read.status
  }

  lemma SteadyAfter(c: Site, d: Site)
    requires c.markers != [] && Steady(c.markers) && Grown(c, d)
    ensures Steady(d.markers)
  {
    forall k | 0 <= k && k + 1 < |d.markers|
      ensures KeepsFirst(d.markers[k].status.restore, d.markers[k + 1].status.restore)
    {
      assert k < |c.markers| ==> d.markers[..|c.markers|][k] == c.markers[k];
      assert k + 1 < |c.markers| ==> d.markers[..|c.markers|][k + 1] == c.markers[k + 1];
    }
  }

  lemma GrownHolds(c: Site, d: Site, l: Local)
    requires Held(c, l) && Grown(c, d)
    ensures Held(d, l)
  {
    SteadyAfter(c, d);
    hide Steady, KeepsFirst;
    assert |d.markers| == |c.markers| ==> d.markers[..|c.markers|] == d.markers;
  }

  lemma SelfKeeps(r: RestoreStatus)
    ensures KeepsFirst(r, r)
  {
  }

  lemma VersionHolds(c: Site, l: Local, m: Marker)
    requires Held(c, l) && l.version + 1 == |c.markers| && m.status == l.st
    ensures Steady(c.markers + [m])
  {
    hide KeepsFirst;
    var ms := c.markers + [m];
    forall k | 0 <= k && k + 1 < |ms|
      ensures KeepsFirst(ms[k].status.restore, ms[k + 1].status.restore)
    {
      if k + 1 < |c.markers| {
        assert ms[k] == c.markers[k] && ms[k + 1] == c.markers[k + 1];
      }
    }
  }

  lemma StoreHolds(c: Site, t: Turn, l: Local)
    requires Held(c, l)
    ensures var (d, l', f) := Store(c, t, l);
            && Held(d, l') && l'.st == l.st && l'.read == l.read
            && (f == Fine ==> l'.version + 1 == |d.markers| && d.markers[l'.version].status == l.st)
  {
    StoreTells(c, t, l);
    GrownHolds(c, At(c, t), l);
    hide HappenAll, Grown, KeepsFirst, Steady, Store;
    var a := At(c, t);
    if TakesEffect(t) && l.version + 1 == |a.markers| {
      VersionHolds(a, l, Current(a).(status := l.st));
      SelfKeeps(l.st.restore);
    }
  }

  lemma Restated(c: Site, l: Local, st: OpsStatus)
    requires Held(c, l) && AsRead(c, l) && KeepsFirst(l.st.restore, st.restore)
    ensures Held(c, l.(st := st))
  {
    hide KeepsFirst;
  }

  // ---- part by part ----

  lemma StartHolds(c: Site, name: string, l: Local, p: Pass)
    requires Held(c, l) && AsRead(c, l) && WantsRestore(l)
    ensures Held(StartRestore(c, name, l, p).c, StartRestore(c, name, l, p).l)
  {
    hide HappenAll, Set, Remove, Store, Steady, CallSequence;
    if !Busy(l.st.restore) && !(l.read.target != "" && l.read.target != name) {
      var l0 := l.(st := Reservation(l.read, l.st, c.now));
      Restated(c, l, l0.st);
      StoreHolds(c, p.reserve, l0);
      var (c1, l1, f) := Store(c, p.reserve, l0);
      if f == Fine {
        SequenceHolds(c1, name, l1, p);
      }
    }
  }

  lemma SequenceHolds(c: Site, name: string, l: Local, p: Pass)
    requires Held(c, l) && l.st.restore.firstTerminalAt == None
    requires l.version + 1 == |c.markers| && c.markers[l.version].status == l.st
    ensures Held(CallSequence(c, name, l, p).c, CallSequence(c, name, l, p).l)
  {
    CallIsSequence(c, name, l, p);
    var s := CallSequence(c, name, l, p);
    hide CallSequence, Steady;
    GrownHolds(c, s.c, l);
    GrownHolds(c, s.c, s.l);
  }

  lemma FollowHolds(c: Site, l: Local, p: Pass)
    requires Held(c, l) && AsRead(c, l)
    ensures Held(FollowRestore(c, l, p).c, FollowRestore(c, l, p).l)
  {
    FollowIsAside(c, l, p);
    FollowKeeps(c, l, p);
    var s := FollowRestore(c, l, p);
    hide FollowRestore, Steady, Grown, KeepsFirst;
    Restated(c, l, s.l.st);
    GrownHolds(c, s.c, s.l);
  }

  lemma FollowKeeps(c: Site, l: Local, p: Pass)
    ensures KeepsFirst(l.st.restore, FollowRestore(c, l, p).l.st.restore)
    ensures FollowRestore(c, l, p).l == l.(st := FollowRestore(c, l, p).l.st)
  {
    var (c1, f, v) := PollRestore(c, l.st.restore.name, l.st.restore.inPlace, p);
    FollowedKeeps(l.st, v, c1.now);
    hide PollRestore, Followed, IsTerminalRestorePhase;
  }

  lemma FollowedKeeps(st: OpsStatus, v: View, now: int)
    ensures KeepsFirst(st.restore, Followed(st, v, now).0.restore)
  {
    hide Set, Find, IsTerminalRestorePhase;
  }

  lemma RecoverHolds(c: Site, l: Local, p: Pass)
    requires Held(c, l) && AsRead(c, l)
    ensures Held(Recover(c, l, p).c, Recover(c, l, p).l)
  {
    RecoverIsAside(c, l, p);
    RecoverKeeps(c, l, p);
    var s := Recover(c, l, p);
    hide Recover, Steady, Grown, KeepsFirst;
    Restated(c, l, s.l.st);
    GrownHolds(c, s.c, s.l);
  }

  lemma RecoverKeeps(c: Site, l: Local, p: Pass)
    ensures KeepsFirst(l.st.restore, Recover(c, l, p).l.st.restore)
    ensures Recover(c, l, p).l == l.(st := Recover(c, l, p).l.st)
  {
    hide InspectInterrupted, SetFluxSuspend, Set, Find;
  }

  lemma RestoreHolds(c: Site, name: string, l: Local, p: Pass)
    requires Held(c, l) && AsRead(c, l)
    ensures Held(ReconcileRestore(c, name, l, p).c, ReconcileRestore(c, name, l, p).l)
  {
    hide StartRestore, FollowRestore, Recover, Held, AsRead;
    if WantsRestore(l) {
      StartHolds(c, name, l, p);
    } else if l.st.restore.name != "" {
      FollowHolds(c, l, p);
    } else {
      RecoverHolds(c, l, p);
    }
  }

  lemma BackupHolds(c: Site, l: Local, p: Pass)
    requires Held(c, l)
    ensures Held(ReconcileBackup(c, l, p).c, ReconcileBackup(c, l, p).l)
  {
    hide Store, TakeBackup, Steady, KeepsFirst, Grown, HappenAll, BackupSelection.IsTerminalBackupPhase, Set, Find;
    if WantsBackup(l) {
      var l0 := l.(st := l.st.(backup := BackupStatus(l.read.backupAsk, "", "New")));
      StoreHolds(c, p.consume, l0);
      var (c1, l1, f) := Store(c, p.consume, l0);
      TakingIsOne(c1, l1, p);
      GrownHolds(c1, At(c1, p.trigger), l1);
    } else {
      BackupIsAside(c, l, p);
      GrownHolds(c, ReconcileBackup(c, l, p).c, l);
    }
  }

  lemma PassHolds(c: Site, name: string, p: Pass)
    requires c.markers != [] && Steady(c.markers)
    ensures var ms := Reconcile(c, name, p).0.markers; ms != [] && Steady(ms)
  {
    EventsAreAside(c, p.idle);
    var c0 := HappenAll(c, p.idle);
    var l := Opened(c0, p);
    SteadyAfter(c, c0);
    SelfKeeps(l.st.restore);
    assert Held(c0, l) && AsRead(c0, l);
    RestoreHolds(c0, name, l, p);
    hide HappenAll, Grown, Store, ReconcileRestore, ReconcileBackup, AsRead, KeepsFirst, Steady, Opened;
    var s1 := ReconcileRestore(c0, name, l, p);
    BackupHolds(s1.c, s1.l, p);
    var s2 := ReconcileBackup(s1.c, s1.l, p);
    StoreHolds(s2.c, p.store, s2.l);
  }

  lemma {:induction false} RunHolds(c: Site, name: string, ps: seq<Pass>)
    requires c.markers != [] && Steady(c.markers)
    ensures var ms := Run(c, name, ps).markers; ms != [] && Steady(ms)
  {
    hide Steady, Reconcile;
    if ps == [] {
    } else {
      RunHolds(c, name, ps[..|ps| - 1]);
      PassHolds(Run(c, name, ps[..|ps| - 1]), name, ps[|ps| - 1]);
    }
  }

  lemma {:induction false} FirstStays(ms: seq<Marker>, i: nat, j: nat)
    requires Steady(ms) && i <= j < |ms| && ms[i].status.restore.firstTerminalAt.Some?
    requires forall k | i <= k <= j :: ms[k].status.restore.handled == ms[i].status.restore.handled
    ensures ms[j].status.restore.firstTerminalAt == ms[i].status.restore.firstTerminalAt
    decreases j
  {
    if i == j {
    } else {
      FirstStays(ms, i, j - 1);
      assert KeepsFirst(ms[j - 1].status.restore, ms[j - 1 + 1].status.restore);
    }
  }

  /** One request is the handled one from version i on. */
  ghost predicate SameRequest(ms: seq<Marker>, i: nat) {
    i < |ms| && forall k | i <= k < |ms| :: ms[k].status.restore.handled == ms[i].status.restore.handled
  }

  /** Over every run, the time a restore was first seen ended is fixed for as long as its
      request is the handled one. */
  lemma FirstTerminalIsFixed(c: Site, name: string, ps: seq<Pass>, i: nat, s: int)
    requires c.markers != [] && Steady(c.markers) && SameRequest(Run(c, name, ps).markers, i)
    requires Run(c, name, ps).markers[i].status.restore.firstTerminalAt == Some(s)
    ensures forall j | i <= j < |Run(c, name, ps).markers| ::
              Run(c, name, ps).markers[j].status.restore.firstTerminalAt == Some(s)
  {
    RunHolds(c, name, ps);
    hide Run;
    var ms := Run(c, name, ps).markers;
    forall j | i <= j < |ms|
      ensures ms[j].status.restore.firstTerminalAt == Some(s)
    {
      FirstStays(ms, i, j);
    }
  }

  // ---- the wait for a resume ----

  predicate OnCurrent(c: Site, p: Pass) {
    c.markers != [] && Version(c, p) + 1 == |c.markers|
  }

  /** What a poll of the recorded restore answers. */
  function Polled(c: Site, p: Pass): (Site, Flow, View)
    requires c.markers != []
  {
    PollRestore(c, Opened(c, p).st.restore.name, Opened(c, p).st.restore.inPlace, p)
  }

  /** The pass polls a restore that has ended, and Flux is not back. */
  predicate FindsPending(c: Site, p: Pass) {
    OnCurrent(c, p)
    && var l := Opened(c, p);
       var (_, f, v) := Polled(c, p);
       && !WantsRestore(l) && l.st.restore.name != ""
       && !(IsTerminalRestorePhase(l.st.restore.phase) && !l.st.restore.resumePending)
       && f == Fine && IsTerminalRestorePhase(v.phase) && v.resumePending
  }

  function PolledAt(c: Site, p: Pass): int
    requires c.markers != []
  {
    Polled(c, p).0.now
  }

  /** The restore part of a pass on the current version. */
  function AfterFollow(c: Site, name: string, p: Pass): Step
    requires c.markers != []
  {
    ReconcileRestore(c, name, Opened(c, p), p)
  }

  predicate GivesUpResume(c: Site, name: string, p: Pass)
    requires c.markers != []
  {
    AfterFollow(c, name, p).l.st.restore.resumeFailed
  }

  /** Ended, and nothing waited for. */
  predicate Settled(r: RestoreStatus) {
    r.name != "" && IsTerminalRestorePhase(r.phase) && !r.resumePending
  }

  /** A pending poll gives up exactly when the stored first time is more than two hours old.
      Otherwise the wait goes on from where it began, and another look is asked for. */
  lemma PendingPoll(c: Site, name: string, p: Pass)
    requires FindsPending(c, p)
    ensures var s := AfterFollow(c, name, p);
            var first := Current(c).status.restore.firstTerminalAt;
            && (GivesUpResume(c, name, p) <==> first.Some? && PolledAt(c, p) - first.value > 7200)
            && s.l.st.restore.firstTerminalAt == Some(if first.Some? then first.value else PolledAt(c, p))
            && (if GivesUpResume(c, name, p) then s.end == Wants(0) && Settled(s.l.st.restore)
                else s.end == Wants(10) && s.l.st.restore.resumePending)
            && s.l.st.restore.handled == Current(c).status.restore.handled
  {
    var l := Opened(c, p);
    assert l.st == Current(c).status;
    var (c1, f, v) := Polled(c, p);
    FollowedPending(l.st, v, c1.now);
    hide StartRestore, Recover, PollRestore, Followed, IsTerminalRestorePhase, Opened;
  }

  lemma FollowedPending(st: OpsStatus, v: View, now: int)
    requires IsTerminalRestorePhase(v.phase) && v.resumePending
    ensures var (st', requeue) := Followed(st, v, now);
            var first := st.restore.firstTerminalAt;
            && (st'.restore.resumeFailed <==> first.Some? && now - first.value > RESUME_GIVE_UP_AFTER)
            && st'.restore.firstTerminalAt == Some(if first.Some? then first.value else now)
            && (st'.restore.resumePending <==> !st'.restore.resumeFailed)
            && requeue == (if st'.restore.resumeFailed then 0 else REQUEUE_INTERVAL)
            && st'.restore.phase == v.phase && st'.restore.name == st.restore.name
            && st'.restore.handled == st.restore.handled
  {
    hide Set, Find, IsTerminalRestorePhase;
  }

  /** Over every run, whatever passes it is made of: once the first time is stored, a pending
      resume is given up at the first successful poll more than two hours after it, and at no
      earlier one, for as long as the request is the handled one. */
  lemma ResumeStopsAtFirstOverdue(c: Site, name: string, ps: seq<Pass>, i: nat, p: Pass, s: int)
    requires c.markers != [] && Steady(c.markers)
    requires var d := HappenAll(Run(c, name, ps), p.idle);
             && SameRequest(d.markers, i) && d.markers[i].status.restore.firstTerminalAt == Some(s)
             && FindsPending(d, p)
    ensures var d := HappenAll(Run(c, name, ps), p.idle);
            GivesUpResume(d, name, p) <==> PolledAt(d, p) - s > 7200
  {
    var r := Run(c, name, ps);
    RunHolds(c, name, ps);
    IdleSteady(r, p.idle);
    hide *;
    var d := HappenAll(r, p.idle);
    LastFirst(d, i, s);
    PendingPoll(d, name, p);
  }

  lemma IdleSteady(c: Site, es: seq<Event>)
    requires c.markers != [] && Steady(c.markers)
    ensures Steady(HappenAll(c, es).markers)
  {
    EventsAreAside(c, es);
    hide HappenAll, Steady;
    SteadyAfter(c, HappenAll(c, es));
  }

  lemma LastFirst(c: Site, i: nat, s: int)
    requires Steady(c.markers) && SameRequest(c.markers, i) && c.markers[i].status.restore.firstTerminalAt == Some(s)
    ensures c.markers != [] && Current(c).status.restore.firstTerminalAt == Some(s)
  {
    FirstStays(c.markers, i, |c.markers| - 1);
    hide Steady;
  }

  // ---- a record that stays ----

  /** The marker records `r`, and a pass that could store anything would store `r` again. */
  ghost predicate Frozen(c: Site, l: Local, r: RestoreStatus) {
    && c.markers != [] && Current(c).status.restore == r && l.version < |c.markers|
    && (l.version + 1 == |c.markers| ==> l.st.restore == r)
  }

  /** A request waits behind a restore recorded as running; or nothing is asked, and
      nothing waited for. */
  predicate Stuck(c: Site, r: RestoreStatus) {
    && c.markers != [] && Current(c).status.restore == r
    && if Current(c).restoreAsk in {"", r.handled} then Settled(r) else Busy(r)
  }

  lemma GrownFrozen(c: Site, d: Site, l: Local, r: RestoreStatus)
    requires Frozen(c, l, r) && Grown(c, d)
    ensures Frozen(d, l, r)
  {
    assert |d.markers| == |c.markers| ==> d.markers[..|c.markers|] == d.markers;
  }

  lemma StoreFrozen(c: Site, t: Turn, l: Local, r: RestoreStatus)
    requires Frozen(c, l, r)
    ensures var (d, l', f) := Store(c, t, l);
            && Frozen(d, l', r) && l'.st == l.st && l'.read == l.read && (f == Fine ==> l.st.restore == r)
            && |d.restores| == |c.restores|
  {
    StoreTells(c, t, l);
    RestoreExclusion.StoreCounts(c, t, l);
    GrownFrozen(c, At(c, t), l, r);
    hide HappenAll, Grown, Store;
  }

  /** A copy that is not the current version never will be. */
  lemma StaleFrozen(c: Site, d: Site, l: Local, r: RestoreStatus)
    requires Frozen(c, l, r) && l.version + 1 < |c.markers| && RestoreExclusion.Calm(c, d)
    ensures forall st: OpsStatus :: Frozen(d, l.(st := st), r)
    ensures |d.restores| == |c.restores|
  {
    GrownFrozen(c, d, l, r);
  }

  /** Only a stale copy gets past the guards, and nothing it would store can land. */
  lemma RestoreFrozen(c: Site, name: string, l: Local, p: Pass, r: RestoreStatus)
    requires Frozen(c, l, r) && AsRead(c, l) && Stuck(c, r)
    ensures var s := ReconcileRestore(c, name, l, p); Frozen(s.c, s.l, r) && |s.c.restores| == |c.restores|
  {
    if WantsRestore(l) {
      StartFrozen(c, name, l, p, r);
    } else if l.version + 1 == |c.markers| {
      hide PollRestore, Recover, IsTerminalRestorePhase;
      assert ReconcileRestore(c, name, l, p) == Step(c, l, Wants(0));
    } else if l.st.restore.name != "" {
      FollowIsCalm(c, l, p);
      StaleFrozen(c, FollowRestore(c, l, p).c, l, r);
      FollowKeeps(c, l, p);
      hide FollowRestore;
    } else {
      RecoverIsCalm(c, l, p);
      StaleFrozen(c, Recover(c, l, p).c, l, r);
      RecoverKeeps(c, l, p);
      hide Recover;
    }
  }

  lemma FollowIsCalm(c: Site, l: Local, p: Pass)
    ensures RestoreExclusion.Calm(c, FollowRestore(c, l, p).c)
  {
    RestoreExclusion.PollIsCalm(c, l.st.restore.name, l.st.restore.inPlace, p);
    RestoreExclusion.CalmSelf(c);
    hide PollRestore, Followed, IsTerminalRestorePhase, RestoreExclusion.Calm;
  }

  lemma RecoverIsCalm(c: Site, l: Local, p: Pass)
    ensures RestoreExclusion.Calm(c, Recover(c, l, p).c)
  {
    RestoreExclusion.InspectIsCalm(c, p);
    hide InspectInterrupted, SetFluxSuspend, Set, Find, FirstActive, RestoreExclusion.Calm;
    var c1 := InspectInterrupted(c, p).0;
    RestoreExclusion.FluxIsCalm(c1, p.sequence.resumeHelm, p.sequence.resumeKustomization, false);
    RestoreExclusion.CalmTwice(c, c1, SetFluxSuspend(c1, p.sequence.resumeHelm, p.sequence.resumeKustomization, false).0);
  }

  lemma StartFrozen(c: Site, name: string, l: Local, p: Pass, r: RestoreStatus)
    requires Frozen(c, l, r) && AsRead(c, l) && Stuck(c, r) && WantsRestore(l)
    ensures var s := StartRestore(c, name, l, p); Frozen(s.c, s.l, r) && |s.c.restores| == |c.restores|
  {
    hide HappenAll, CallSequence, Store, Set, Remove, IsTerminalRestorePhase;
    if !Busy(l.st.restore) && !(l.read.target != "" && l.read.target != name) {
      assert l.version + 1 < |c.markers|;
      var l0 := l.(st := Reservation(l.read, l.st, c.now));
      StoreFrozen(c, p.reserve, l0, r);
      StoreTells(c, p.reserve, l0);
      assert Store(c, p.reserve, l0).2 != Fine;
    }
  }

  lemma BackupFrozen(c: Site, l: Local, p: Pass, r: RestoreStatus)
    requires Frozen(c, l, r)
    ensures var s := ReconcileBackup(c, l, p); Frozen(s.c, s.l, r) && |s.c.restores| == |c.restores|
  {
    hide Store, Set, Find, TakeBackup, BackupSelection.IsTerminalBackupPhase, HappenAll, Grown;
    if WantsBackup(l) {
      var l0 := l.(st := l.st.(backup := BackupStatus(l.read.backupAsk, "", "New")));
      StoreFrozen(c, p.consume, l0, r);
      var (c1, l1, f) := Store(c, p.consume, l0);
      TakingIsOne(c1, l1, p);
      TakingCounts(c1, l1, p);
      GrownFrozen(c1, At(c1, p.trigger), l1, r);
    } else {
      BackupIsAside(c, l, p);
      GrownFrozen(c, ReconcileBackup(c, l, p).c, l, r);
      RestoreExclusion.CallIsCalm(c, p.getBackup, At(c, p.getBackup));
      hide IsActive;
    }
  }

  lemma TakingCounts(c: Site, l: Local, p: Pass)
    ensures |TakeBackup(c, l, p).c.restores| == |c.restores|
  {
    RestoreExclusion.CallIsCalm(c, p.trigger, At(c, p.trigger));
    hide HappenAll, Grown, IsActive, Set, Find;
  }

  lemma OpenedFrozen(c: Site, p: Pass, r: RestoreStatus)
    requires Stuck(c, r)
    ensures Frozen(c, Opened(c, p), r) && AsRead(c, Opened(c, p))
  {
  }

  lemma FrozenTells(c: Site, l: Local, r: RestoreStatus)
    requires Frozen(c, l, r)
    ensures Forgotten(c).markers != [] && Current(Forgotten(c)).status.restore == r && Forgotten(c).restores == c.restores
    ensures c.markers != [] && Current(c).status.restore == r
  {
  }

  lemma PassFrozen(c: Site, name: string, p: Pass, r: RestoreStatus)
    requires Stuck(HappenAll(c, p.idle), r)
    ensures var d := Reconcile(c, name, p).0;
            d.markers != [] && Current(d).status.restore == r && |d.restores| == |c.restores|
  {
    var c0 := HappenAll(c, p.idle);
    IdleCounts(c, p.idle);
    OpenedFrozen(c0, p, r);
    var l := Opened(c0, p);
    RestoreFrozen(c0, name, l, p, r);
    hide HappenAll, Finish, ReconcileRestore, ReconcileBackup, AsRead, Busy, Opened, Stuck, Frozen, Current;
    var s1 := ReconcileRestore(c0, name, l, p);
    FrozenTells(s1.c, s1.l, r);
    BackupFrozen(s1.c, s1.l, p, r);
    var s2 := ReconcileBackup(s1.c, s1.l, p);
    FrozenTells(s2.c, s2.l, r);
    FinishFrozen(s2.c, s2.l, s1.end, s2.end, p, r);
  }

  lemma IdleCounts(c: Site, es: seq<Event>)
    ensures |HappenAll(c, es).restores| == |c.restores|
  {
    RestoreExclusion.EventsAreCalm(c, es);
    hide HappenAll, Grown, IsActive;
  }

  lemma FinishFrozen(c: Site, l: Local, restoring: End, saving: End, p: Pass, r: RestoreStatus)
    requires Frozen(c, l, r)
    ensures var d := Finish(c, l, restoring, saving, p).0;
            d.markers != [] && Current(d).status.restore == r && |d.restores| == |c.restores|
  {
    StoreFrozen(c, p.store, l, r);
    hide Store;
  }

  /** At the beginning of every pass a request is pending; or at none. */
  predicate Throughout(c: Site, name: string, ps: seq<Pass>, handled: string, pending: bool) {
    ps != [] ==>
      var n := |ps| - 1;
      Throughout(c, name, ps[..n], handled, pending)
      && var c0 := HappenAll(Run(c, name, ps[..n]), ps[n].idle);
         c0.markers != [] && (Current(c0).restoreAsk !in {"", handled} <==> pending)
  }

  lemma IdleKeepsRecord(c: Site, es: seq<Event>, r: RestoreStatus)
    requires c.markers != [] && Current(c).status.restore == r
    ensures var d := HappenAll(c, es); d.markers != [] && Current(d).status.restore == r
  {
    EventsAreAside(c, es);
    hide HappenAll;
    assert |HappenAll(c, es).markers| == |c.markers| ==> HappenAll(c, es).markers == c.markers;
  }

  lemma {:induction false} RecordStays(c: Site, name: string, ps: seq<Pass>, r: RestoreStatus, pending: bool)
    requires c.markers != [] && Current(c).status.restore == r && (if pending then Busy(r) else Settled(r))
    requires Throughout(c, name, ps, r.handled, pending)
    ensures var d := Run(c, name, ps);
            d.markers != [] && Current(d).status.restore == r && |d.restores| == |c.restores|
  {
    hide HappenAll, Reconcile, Busy, Settled, Current;
    if ps == [] {
    } else {
      var n := |ps| - 1;
      RecordStays(c, name, ps[..n], r, pending);
      var d := Run(c, name, ps[..n]);
      IdleKeepsRecord(d, ps[n].idle, r);
      PassFrozen(d, name, ps[n], r);
    }
  }

  /** As long as a request is pending behind a restore recorded as running, the record never
      changes, however long ago that restore ended, and no restore is made: the deferred
      request is not honoured by any run. */
  lemma DeferredRequestStarves(c: Site, name: string, ps: seq<Pass>, r: RestoreStatus)
    requires c.markers != [] && Current(c).status.restore == r && Busy(r)
    requires Throughout(c, name, ps, r.handled, true)
    ensures var d := Run(c, name, ps);
            d.markers != [] && Current(d).status.restore == r && |d.restores| == |c.restores|
  {
    RecordStays(c, name, ps, r, true);
    hide *;
  }

  /** Once a resume was given up and that was stored, it stays given up over every run without
      a new request: the record never changes, no restore is made, and the restore part of
      every pass on the current version does nothing. */
  lemma GivenUpIsFinal(c: Site, name: string, p: Pass, d: Site, ps: seq<Pass>, q: Pass)
    requires FindsPending(c, p) && GivesUpResume(c, name, p)
    requires var r := AfterFollow(c, name, p).l.st.restore;
             && d.markers != [] && Current(d).status.restore == r
             && Throughout(d, name, ps + [q], r.handled, false)
    ensures var r := AfterFollow(c, name, p).l.st.restore;
            var e := HappenAll(Run(d, name, ps), q.idle);
            && r.resumeFailed && e.markers != [] && Current(e).status.restore == r && |e.restores| == |d.restores|
            && (OnCurrent(e, q) ==> ReconcileRestore(e, name, Opened(e, q), q) == Step(e, Opened(e, q), Wants(0)))
  {
    var r := AfterFollow(c, name, p).l.st.restore;
    PendingPoll(c, name, p);
    assert (ps + [q])[..|ps|] == ps;
    var f := Run(d, name, ps);
    var e := HappenAll(f, q.idle);
    assert e.markers != [] && Current(e).restoreAsk in {"", r.handled};
    hide AfterFollow, GivesUpResume, FindsPending, Run, HappenAll, Throughout, ReconcileRestore, Settled, Current, Opened;
    RecordStays(d, name, ps, r, false);
    IdleKeepsRecord(f, q.idle, r);
    IdleCounts(f, q.idle);
    if OnCurrent(e, q) {
      SettledIsLeftAlone(e, name, q, r);
    }
  }

  lemma SettledIsLeftAlone(c: Site, name: string, p: Pass, r: RestoreStatus)
    requires OnCurrent(c, p) && Current(c).status.restore == r && Settled(r) && Current(c).restoreAsk in {"", r.handled}
    ensures ReconcileRestore(c, name, Opened(c, p), p) == Step(c, Opened(c, p), Wants(0))
  {
    hide StartRestore, Recover, PollRestore, IsTerminalRestorePhase;
  }

  // ---- a misplaced marker ----

  /** A run of passes over a marker, wherever it lives. */
  function RunAnywhere(c: Site, name: string, namespace: string, ps: seq<Pass>): Site {
    if ps == [] then c
    else ReconcileAnywhere(RunAnywhere(c, name, namespace, ps[..|ps| - 1]), name, namespace, ps[|ps| - 1]).0
  }

  /** The marker lives in the namespace of the tenant it is named after. */
  predicate AtHome(name: string, namespace: string) {
    VClusters.Tenant(name) && namespace == "vcluster-" + name
  }

  lemma PlacedExactly(name: string, namespace: string)
    ensures Placed(name, namespace) <==> AtHome(name, namespace)
  {
    VClusters.ValidNameExactly(name);
    hide VClusters.ValidName, VClusters.Tenant;
  }

  /** A marker at home is reconciled: its runs are those the other theorems are about. */
  lemma {:induction false} MarkerAtHomeIsReconciled(c: Site, name: string, namespace: string, ps: seq<Pass>)
    requires AtHome(name, namespace)
    ensures RunAnywhere(c, name, namespace, ps) == Run(c, name, ps)
  {
    PlacedExactly(name, namespace);
    hide AtHome, Placed, Reconcile, Refuse;
    if ps == [] {
    } else {
      MarkerAtHomeIsReconciled(c, name, namespace, ps[..|ps| - 1]);
    }
  }

  /** The same records, and nothing done. */
  ghost predicate Inert(c: Site, d: Site) {
    && c.markers != [] && d.markers != [] && d.log == c.log
    && Current(d).status.restore == Current(c).status.restore && Current(d).status.backup == Current(c).status.backup
  }

  lemma GrownKeepsStatus(c: Site, d: Site)
    requires c.markers != [] && Grown(c, d)
    ensures d.markers != [] && Current(d).status == Current(c).status
  {
    assert |d.markers| == |c.markers| ==> d.markers[..|c.markers|] == d.markers;
  }

  /** A status write that only rewrites conditions. */
  lemma StoreIsInert(c: Site, t: Turn, l: Local)
    requires c.markers != [] && l.version < |c.markers|
    requires l.st.restore == c.markers[l.version].status.restore && l.st.backup == c.markers[l.version].status.backup
    ensures Inert(c, Store(c, t, l).0)
  {
    StoreTells(c, t, l);
    GrownKeepsStatus(c, At(c, t));
    var a := At(c, t);
    GrownPrefix(c, a);
    hide HappenAll, Grown, Store;
  }

  lemma GrownPrefix(c: Site, d: Site)
    requires Grown(c, d)
    ensures |c.markers| <= |d.markers| && forall i | 0 <= i < |c.markers| :: d.markers[i] == c.markers[i]
  {
    assert forall i | 0 <= i < |c.markers| :: d.markers[..|c.markers|][i] == c.markers[i];
  }

  lemma RefusalIsInert(c: Site, p: Pass)
    requires c.markers != []
    ensures Inert(c, Refuse(c, p).0)
  {
    var c0 := HappenAll(c, p.idle);
    EventsAreAside(c, p.idle);
    GrownKeepsStatus(c, c0);
    hide HappenAll, Grown, Store, Set, Inert;
    var l := Opened(c0, p);
    var l0 := l.(st := WithCond(l.st, Accepted, ConditionFalse, NamespaceMismatch, c0.now));
    StoreIsInert(c0, p.store, l0);
    var d := Store(c0, p.store, l0).0;
    InertLater(c, c0, d);
    assert Refuse(c, p).0 == d || Refuse(c, p).0 == Forgotten(d);
  }

  lemma InertLater(a: Site, b: Site, c: Site)
    requires a.markers != [] && b.markers != [] && b.log == a.log && Current(b).status == Current(a).status && Inert(b, c)
    ensures Inert(a, c) && Inert(a, Forgotten(c))
  {
  }

  /** Whatever is asked for on a misplaced marker, over every run: the operator makes no call,
      and consumes no request. */
  lemma {:induction false} MisplacedMarkerIsInert(c: Site, name: string, namespace: string, ps: seq<Pass>)
    requires c.markers != [] && !AtHome(name, namespace)
    ensures Inert(c, RunAnywhere(c, name, namespace, ps))
  {
    PlacedExactly(name, namespace);
    hide Refuse, Reconcile, Placed, AtHome;
    if ps == [] {
    } else {
      MisplacedMarkerIsInert(c, name, namespace, ps[..|ps| - 1]);
      RefusalIsInert(RunAnywhere(c, name, namespace, ps[..|ps| - 1]), ps[|ps| - 1]);
    }
  }

  /** It is told so by every pass that ends well. */
  lemma MisplacedIsTold(c: Site, name: string, namespace: string, p: Pass)
    requires c.markers != [] && !AtHome(name, namespace) && ReconcileAnywhere(c, name, namespace, p).1.Wants?
    ensures var d := ReconcileAnywhere(c, name, namespace, p).0;
            && d.markers != [] && HasStatus(Current(d).status.conditions, Accepted, ConditionFalse)
            && HasReason(Current(d).status.conditions, Accepted, NamespaceMismatch)
  {
    PlacedExactly(name, namespace);
    EventsAreAside(c, p.idle);
    var c0 := HappenAll(c, p.idle);
    GrownKeepsStatus(c, c0);
    var l := Opened(c0, p);
    var l0 := l.(st := WithCond(l.st, Accepted, ConditionFalse, NamespaceMismatch, c0.now));
    StoreTells(c0, p.store, l0);
    hide HappenAll, Grown, Store, Set, Find, Placed, AtHome, Opened, Reconcile;
  }

  /** No marker commands anything in the operator's own namespace, whatever its name. */
  lemma OperatorIsNoTenant(c: Site, name: string, ps: seq<Pass>)
    requires c.markers != []
    ensures Inert(c, RunAnywhere(c, name, "vcluster-manager", ps))
  {
    assert ("vcluster-" + name)[9..] == name;
    assert "vcluster-manager"[9..] == "manager";
    MisplacedMarkerIsInert(c, name, "vcluster-manager", ps);
  }
}
