/**
 What the reconciler's calls leave alone: the marker, which meanwhile only its requesters
 write to, and the entries of the log that answer a request.
 */
module RestoreAside {
  import opened Wrappers
  import opened Turns
  import BackupSelection
  import opened Conditions
  import opened RestoreWorld
  import opened RestoreSequence
  import opened RestoreController

  /** The marker got no new version but from its requesters, who carry its status on. */
  ghost predicate Grown(c: Site, d: Site) {
    && |c.markers| <= |d.markers| && d.markers[..|c.markers|] == c.markers
    && if c.markers == [] then d.markers == []
       else forall i | |c.markers| <= i < |d.markers| :: d.markers[i].status == Current(c).status
  }

  predicate Answers(e: Entry) {
    e.Called? || e.TriggeredBackup?
  }

  /** The log went on, and no request was answered. */
  ghost predicate Unanswered(before: seq<Entry>, after: seq<Entry>) {
    before <= after && forall i | |before| <= i < |after| :: !Answers(after[i])
  }

  ghost predicate Aside(c: Site, d: Site) {
    Grown(c, d) && Unanswered(c.log, d.log)
  }

  lemma GrownTwice(a: Site, b: Site, c: Site)
    requires Grown(a, b) && Grown(b, c)
    ensures Grown(a, c)
  {
    assert c.markers[..|a.markers|] == c.markers[..|b.markers|][..|a.markers|];
    if a.markers != [] {
      forall i | |a.markers| <= i < |c.markers|
        ensures c.markers[i].status == Current(a).status
      {
        assert i < |b.markers| ==> c.markers[..|b.markers|][i] == b.markers[i];
      }
    }
  }

  lemma AsideTwice(a: Site, b: Site, c: Site)
    requires Aside(a, b) && Aside(b, c)
    ensures Aside(a, c)
  {
    GrownTwice(a, b, c);
    hide Grown;
    forall i | |a.log| <= i < |c.log|
      ensures !Answers(c.log[i])
    {
      assert i < |b.log| ==> c.log[i] == b.log[i];
    }
  }

  /** Neither the marker nor the log is touched, but for one entry that answers nothing. */
  lemma SameAside(c: Site, d: Site, e: Entry)
    requires d.markers == c.markers && (d.log == c.log || d.log == c.log + [e]) && !Answers(e)
    ensures Aside(c, d)
  {
    assert d.markers[..|c.markers|] == c.markers;
  }

  lemma AskedAside(c: Site, m: Marker)
    requires c.markers != [] && m.status == Current(c).status
    ensures Aside(c, c.(markers := c.markers + [m]))
  {
    var d := c.(markers := c.markers + [m]);
    assert d.markers[..|c.markers|] == c.markers;
  }

  lemma EventIsAside(c: Site, e: Event)
    ensures Aside(c, Happen(c, e)) && Happen(c, e).log == c.log
  {
    var none := PatchedHelmRelease(true);
    match e
    case RestoreAsked(ask, from, target) =>
      if c.markers == [] {
        SameAside(c, c, none);
      } else {
        AskedAside(c, Current(c).(restoreAsk := ask, fromBackup := from, target := target));
      }
    case BackupAsked(ask) =>
      if c.markers == [] {
        SameAside(c, c, none);
      } else {
        AskedAside(c, Current(c).(backupAsk := ask));
      }
    case _ =>
      OtherEvent(c, e);
      SameAside(c, Happen(c, e), none);
  }

  lemma OtherEvent(c: Site, e: Event)
    requires !e.RestoreAsked? && !e.BackupAsked?
    ensures Happen(c, e).markers == c.markers && Happen(c, e).log == c.log
  {
    if e.VeleroRebuilds? || e.FluxRebuilds? {
      RebuiltSame(c, e.external, e.deployment, e.statefulSet, e.etcd);
      hide *;
      EventIs(c, e);
    } else if e.VolumeReleased? {
      RebuiltSame(c, e.external, false, false, false);
      hide *;
      EventIs(c, e);
    }
  }

  lemma RebuiltSame(c: Site, x: bool, a: bool, b: bool, etcd: bool)
    ensures var d := Rebuilt(c, x, a, b, etcd); d.restores == c.restores && d.markers == c.markers && d.log == c.log
    ensures var d := WithVolume(c, x, Gone); d.restores == c.restores && d.markers == c.markers && d.log == c.log
  {
    hide Volume;
  }

  lemma EventIs(c: Site, e: Event)
    ensures e.VeleroRebuilds? || e.FluxRebuilds? ==>
              Happen(c, e) == c || Happen(c, e) == Rebuilt(c, e.external, e.deployment, e.statefulSet, e.etcd)
    ensures e.VolumeReleased? ==> Happen(c, e) == c || Happen(c, e) == WithVolume(c, e.external, Gone)
  {
    hide Rebuilt, WithVolume, FirstActive, Volume;
  }

  lemma {:induction false} EventsAreAside(c: Site, es: seq<Event>)
    ensures Aside(c, HappenAll(c, es)) && HappenAll(c, es).log == c.log
  {
    hide Happen, Aside;
    if es == [] {
      SameAside(c, c, PatchedHelmRelease(true));
    } else {
      EventsAreAside(c, es[..|es| - 1]);
      var d := HappenAll(c, es[..|es| - 1]);
      EventIsAside(d, es[|es| - 1]);
      AsideTwice(c, d, Happen(d, es[|es| - 1]));
    }
  }

  /** A call that does not touch the marker and answers no request. */
  lemma CallIsAside(c: Site, t: Turn, d: Site, e: Entry)
    requires d.markers == At(c, t).markers && (d.log == At(c, t).log || d.log == At(c, t).log + [e]) && !Answers(e)
    ensures Aside(c, d)
  {
    EventsAreAside(c, t.before);
    hide HappenAll, Aside;
    SameAside(At(c, t), d, e);
    AsideTwice(c, At(c, t), d);
  }

  lemma TurnIsAside(c: Site, t: Turn)
    ensures Aside(c, At(c, t)) && At(c, t).log == c.log
  {
    EventsAreAside(c, t.before);
    hide HappenAll, Aside;
  }

  // ---- the calls of the sequence ----

  lemma FluxIsAside(c: Site, helm: Turn, kustomization: Turn, suspend: bool)
    ensures Aside(c, SetFluxSuspend(c, helm, kustomization, suspend).0)
  {
    hide HappenAll, Aside;
    var (c1, f) := PatchHelmRelease(c, helm, suspend);
    CallIsAside(c, helm, c1, PatchedHelmRelease(suspend));
    var c2 := PatchKustomization(c1, kustomization, suspend).0;
    CallIsAside(c1, kustomization, c2, PatchedKustomization(suspend));
    AsideTwice(c, c1, c2);
  }

  lemma DetectIsAside(c: Site, etcd: Turn, controlPlane: Turn)
    ensures Aside(c, Detect(c, etcd, controlPlane).0)
  {
    hide HappenAll, Aside;
    var c1 := At(c, etcd);
    TurnIsAside(c, etcd);
    TurnIsAside(c1, controlPlane);
    AsideTwice(c, c1, At(c1, controlPlane));
  }

  lemma DeletionsAreAside(c: Site, k: Calls, topo: Topology)
    ensures var c1 := DeleteControlPlane(c, k.deleteControlPlane, topo.deployment).0;
            Aside(c, c1) && Aside(c, DeleteEtcd(c1, k.deleteEtcd).0)
  {
    hide HappenAll, Aside;
    var c1 := DeleteControlPlane(c, k.deleteControlPlane, topo.deployment).0;
    CallIsAside(c, k.deleteControlPlane, c1, if topo.deployment then DeletedDeployment else DeletedStatefulSet);
    var c2 := DeleteEtcd(c1, k.deleteEtcd).0;
    CallIsAside(c1, k.deleteEtcd, c2, DeletedEtcd);
    AsideTwice(c, c1, c2);
  }

  lemma QuiesceIsAside(c: Site, k: Calls)
    ensures Aside(c, Quiesce(c, k).0)
  {
    DetectIsAside(c, k.detectEtcd, k.detectControlPlane);
    hide HappenAll, Aside, Detect, DeleteControlPlane, DeleteEtcd;
    var (c1, f1, topo) := Detect(c, k.detectEtcd, k.detectControlPlane);
    var c2 := At(c1, k.selector);
    TurnIsAside(c1, k.selector);
    AsideTwice(c, c1, c2);
    TurnIsAside(c2, k.etcdSelector);
    AsideTwice(c, c2, At(c2, k.etcdSelector));
    var c3 := if topo.external then At(c2, k.etcdSelector) else c2;
    DeletionsAreAside(c3, k, topo);
    var c4 := DeleteControlPlane(c3, k.deleteControlPlane, topo.deployment).0;
    AsideTwice(c, c3, c4);
    AsideTwice(c, c3, DeleteEtcd(c4, k.deleteEtcd).0);
  }

  lemma CreateStageIsAside(c: Site, from: string, k: Calls)
    ensures Aside(c, CreateStage(c, from, k).c)
  {
    hide HappenAll, Aside, Named;
    CallIsAside(c, k.create, CreateStage(c, from, k).c, CreatedRestore(k.name, from));
  }

  lemma VolumeStageIsAside(c: Site, topo: Topology, from: string, k: Calls)
    ensures Aside(c, VolumeStage(c, topo, from, k).c)
  {
    hide HappenAll, Aside, CreateStage, SetFluxSuspend, Volume;
    var (c1, v) := DeleteVolume(c, k.deleteVolume, topo.external);
    CallIsAside(c, k.deleteVolume, c1, DeletedVolume(topo.external));
    FluxIsAside(c1, k.resumeHelm, k.resumeKustomization, false);
    AsideTwice(c, c1, Abort(c1, k).c);
    CreateStageIsAside(c1, from, k);
    AsideTwice(c, c1, CreateStage(c1, from, k).c);
  }

  lemma QuiesceStageIsAside(c: Site, from: string, k: Calls)
    ensures Aside(c, QuiesceStage(c, from, k).c)
  {
    QuiesceIsAside(c, k);
    hide Aside, Quiesce, VolumeStage, SetFluxSuspend;
    var (c1, f, topo) := Quiesce(c, k);
    VolumeStageIsAside(c1, topo, from, k);
    FluxIsAside(c1, k.resumeHelm, k.resumeKustomization, false);
    AsideTwice(c, c1, Abort(c1, k).c);
    AsideTwice(c, c1, VolumeStage(c1, topo, from, k).c);
  }

  /** The whole sequence: it never touches the marker, and answers no request by itself. */
  lemma SequenceIsAside(c: Site, name: string, backup: string, target: string, k: Calls)
    ensures Aside(c, Create(c, name, backup, target, k).c)
  {
    var c1 := GetBackupPhase(c, k.backup, backup).0;
    BackupPhaseIsAside(c, k.backup, backup);
    SameAside(c, c, DeletedEtcd);
    hide HappenAll, Aside, GetBackupPhase, SetFluxSuspend, QuiesceStage, Attemptable;
    FluxIsAside(c1, k.suspendHelm, k.suspendKustomization, true);
    var c2 := SetFluxSuspend(c1, k.suspendHelm, k.suspendKustomization, true).0;
    AsideTwice(c, c1, c2);
    QuiesceStageIsAside(c2, backup, k);
    AsideTwice(c, c2, QuiesceStage(c2, backup, k).c);
  }

  // ---- the calls of a pass ----

  lemma InspectIsAside(c: Site, p: Pass)
    ensures Aside(c, InspectInterrupted(c, p).0)
  {
    DetectIsAside(c, p.interruptedEtcd, p.interruptedControlPlane);
    hide HappenAll, Aside, Detect, FirstActive;
    var c1 := Detect(c, p.interruptedEtcd, p.interruptedControlPlane).0;
    TurnIsAside(c1, p.interruptedVolume);
    var c2 := At(c1, p.interruptedVolume);
    AsideTwice(c, c1, c2);
    TurnIsAside(c1, p.interruptedList);
    TurnIsAside(c2, p.interruptedList);
    AsideTwice(c, c1, At(c1, p.interruptedList));
    AsideTwice(c, c2, At(c2, p.interruptedList));
  }

  lemma PhaseIsAside(c: Site, t: Turn, name: string)
    ensures Aside(c, GetRestorePhase(c, t, name).0)
  {
    hide HappenAll, Aside, Named;
    var (c1, phase) := GetRestorePhase(c, t, name);
    CallIsAside(c, t, c1, PolledRestore(name, if phase.Some? then phase.value else ""));
  }

  lemma BackupPhaseIsAside(c: Site, t: Turn, name: string)
    ensures Aside(c, GetBackupPhase(c, t, name).0)
  {
    hide HappenAll, Aside;
    var (c1, phase) := GetBackupPhase(c, t, name);
    CallIsAside(c, t, c1, ReadBackup(name, if phase.Some? then phase.value else ""));
  }

  lemma PollIsAside(c: Site, name: string, inPlace: bool, p: Pass)
    ensures Aside(c, PollRestore(c, name, inPlace, p).0)
  {
    PhaseIsAside(c, p.getRestore, name);
    hide HappenAll, Aside, SetFluxSuspend, GetRestorePhase, IsTerminalRestorePhase;
    var c1 := GetRestorePhase(c, p.getRestore, name).0;
    FluxIsAside(c1, p.sequence.resumeHelm, p.sequence.resumeKustomization, false);
    var c2 := SetFluxSuspend(c1, p.sequence.resumeHelm, p.sequence.resumeKustomization, false).0;
    AsideTwice(c, c1, c2);
    var c3 := c2.(resolved := c2.resolved + {name});
    SameAside(c2, c3, DeletedEtcd);
    AsideTwice(c, c2, c3);
  }

  /** A status write: the requesters' versions first, then at most its own. */
  lemma StoreTells(c: Site, t: Turn, l: Local)
    ensures var (d, l', f) := Store(c, t, l);
            var a := At(c, t);
            && Aside(c, a) && a.log == c.log && d.log == c.log
            && l'.read == l.read && l'.st == l.st
            && (if TakesEffect(t) && l.version + 1 == |a.markers| then d.markers == a.markers + [Current(a).(status := l.st)]
                else d.markers == a.markers && f != Fine)
            && l'.version == (if f == Fine then l.version + 1 else l.version)
  {
    TurnIsAside(c, t);
    hide HappenAll, Aside;
  }

  // ---- the parts of a pass ----

  /** The local copy carries on: the same version read, and only its status rewritten, the
      handled requests kept but for the one it may reserve. */
  predicate CarriesOn(l: Local, l': Local) {
    && l'.read == l.read && l'.version == l.version
    && l'.st.restore.handled in {l.st.restore.handled, l.read.restoreAsk}
    && l'.st.backup.handled == l.st.backup.handled
  }

  lemma FollowIsAside(c: Site, l: Local, p: Pass)
    ensures Aside(c, FollowRestore(c, l, p).c) && CarriesOn(l, FollowRestore(c, l, p).l)
  {
    SameAside(c, c, DeletedEtcd);
    PollIsAside(c, l.st.restore.name, l.st.restore.inPlace, p);
    var (c1, f, v) := PollRestore(c, l.st.restore.name, l.st.restore.inPlace, p);
    FollowedCarriesOn(l, v, c1.now);
    hide Aside, PollRestore, IsTerminalRestorePhase, Followed;
  }

  lemma FollowedCarriesOn(l: Local, v: View, now: int)
    ensures CarriesOn(l, l.(st := Followed(l.st, v, now).0))
  {
    hide Set, Find, IsTerminalRestorePhase;
  }

  lemma RecoverIsAside(c: Site, l: Local, p: Pass)
    ensures Aside(c, Recover(c, l, p).c) && CarriesOn(l, Recover(c, l, p).l)
  {
    InspectIsAside(c, p);
    hide Aside, InspectInterrupted, SetFluxSuspend, Set, Find;
    var c1 := InspectInterrupted(c, p).0;
    FluxIsAside(c1, p.sequence.resumeHelm, p.sequence.resumeKustomization, false);
    AsideTwice(c, c1, SetFluxSuspend(c1, p.sequence.resumeHelm, p.sequence.resumeKustomization, false).0);
  }

  lemma CallIsSequence(c: Site, name: string, l: Local, p: Pass)
    ensures var s := CallSequence(c, name, l, p);
            Aside(Logged(c, Called(l.read.restoreAsk)), s.c) && CarriesOn(l, s.l)
            && s.l.st.restore.handled == l.st.restore.handled
  {
    SequenceIsAside(Logged(c, Called(l.read.restoreAsk)), name, l.read.fromBackup, l.read.target, p.sequence);
    hide Aside, Create, Set, Find;
  }

  /** A backup part that reserves nothing. */
  lemma BackupIsAside(c: Site, l: Local, p: Pass)
    requires !WantsBackup(l)
    ensures var s := ReconcileBackup(c, l, p);
            Aside(c, s.c) && CarriesOn(l, s.l) && s.l.st.restore == l.st.restore
  {
    SameAside(c, c, DeletedEtcd);
    BackupPhaseIsAside(c, p.getBackup, l.st.backup.name);
    hide Aside, GetBackupPhase, Set, Find, BackupSelection.IsTerminalBackupPhase;
  }

  /** Taking a backup answers the request at most once, after whatever happens aside. */
  lemma TakingIsOne(c: Site, l: Local, p: Pass)
    ensures var s := TakeBackup(c, l, p);
            var a := At(c, p.trigger);
            && Aside(c, a) && s.c.markers == a.markers
            && (s.c.log == a.log || s.c.log == Logged(a, TriggeredBackup(l.read.backupAsk)).log)
            && CarriesOn(l, s.l) && s.l.st.restore == l.st.restore
  {
    TurnIsAside(c, p.trigger);
    hide Aside, HappenAll, Set, Find;
  }
}
