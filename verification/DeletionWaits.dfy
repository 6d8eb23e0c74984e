/**
 How long the finalizer waits, and the limits of what its waits and reads promise.
 */
module DeletionWaits {
  import opened Wrappers
  import opened Turns
  import opened Conditions
  import opened VClusters
  import opened BackupSelection
  import opened DeletionWorld
  import opened Deletion
  import DeletionSafety
  import opened DeletionProgress

  // ---- waiting for Rancher ----

  /** When a pass asks Rancher. */
  function AskedAt(c: Cluster, p: Pass): int {
    At(Begun(c, p), p.rancher).now
  }

  /** The pass finds Rancher enabled and still knowing the cluster, or not answering, and
      is not killed before it decides. */
  predicate FindsUnresolved(c: Cluster, p: Pass) {
    var seen := InspectRancher(Begun(c, p), p.rancher).1;
    && p.stale == None && Alive(p.rancher) && Alive(p.unpair)
    && !seen.notConfigured && seen.enabled && (seen.lookupFailed || seen.stillKnown)
  }

  predicate GivesUp(c: Cluster, p: Pass) {
    AfterRancher(c, p).v == Continue
  }

  /** The object may be destroyed, as far as its own protection goes, and no user edit
      comes with the pass. */
  predicate Lifted(c: Cluster, p: Pass) {
    HappenAll(c, p.idle).cr == c.cr && c.cr.finalizer && c.cr.wellPlaced && !c.cr.spec.deletionProtection
  }

  /** Since when the status says Rancher is being waited for. */
  function WaitsSince(st: Status): Option<int> {
    match Find(st.conditions, RancherPaired)
    case Some(c) => if c.status == ConditionTrue then Some(c.since) else None
    case None => None
  }

  /** An unresolved pass gives up exactly when the stored wait is more than ten minutes
      old, and then without asking Rancher again; otherwise the wait goes on from where
      it began. */
  lemma UnresolvedPass(c: Cluster, p: Pass)
    requires FindsUnresolved(c, p) && Lifted(c, p)
    ensures var g := AfterRancher(c, p);
            && (GivesUp(c, p) <==> WaitsSince(c.cr.status).Some? && AskedAt(c, p) - WaitsSince(c.cr.status).value > 600)
            && (if GivesUp(c, p) then g.c == At(Begun(c, p), p.rancher) && WaitsSince(g.st) == None
                else g.v != Dead
                     && WaitsSince(g.st) == if WaitsSince(c.cr.status).Some? then WaitsSince(c.cr.status) else Some(g.c.now))
  {
    var b := Begun(c, p);
    var g1 := ProtectionStep(b, b.cr, Opening(b.cr.status));
    assert WaitsSince(g1.st) == WaitsSince(c.cr.status);
    hide HappenAll, Set, Find, OverrideDisarms, Unpair, ProtectionStep, Begun;
  }

  /** The pass waited for Rancher, and its status was stored. */
  ghost predicate WaitStored(c: Cluster, p: Pass) {
    && FindsUnresolved(c, p) && Lifted(c, p) && !GivesUp(c, p)
    && Reconcile(c, p).0.cr == c.cr.(status := AfterRancher(c, p).st, version := c.cr.version + 1)
  }

  /** Every pass of the run waited, and every status was stored. */
  ghost predicate AllWait(c: Cluster, ps: seq<Pass>) {
    ps != [] ==>
      var n := |ps| - 1;
      AllWait(c, ps[..n]) && WaitStored(Run(c, ps[..n]), ps[n])
  }

  ghost predicate AllWithin(c: Cluster, ps: seq<Pass>, s: int) {
    ps != [] ==>
      var n := |ps| - 1;
      AllWithin(c, ps[..n], s) && AskedAt(Run(c, ps[..n]), ps[n]) - s <= 600
  }

  /** While Rancher is waited for and the status gets stored, the wait's beginning stays
      where it is, and no pass still waits more than ten minutes after it. */
  lemma {:induction false} AnchorNeverMoves(c: Cluster, ps: seq<Pass>, s: int)
    requires WaitsSince(c.cr.status) == Some(s) && AllWait(c, ps)
    ensures WaitsSince(Run(c, ps).cr.status) == Some(s) && AllWithin(c, ps, s)
  {
    if ps == [] {
    } else {
      hide AfterRancher, Reconcile, FindsUnresolved, Lifted, GivesUp, AskedAt, WaitsSince;
      var n := |ps| - 1;
      AnchorNeverMoves(c, ps[..n], s);
      UnresolvedPass(Run(c, ps[..n]), ps[n]);
    }
  }

  /** Hence the wait stops at the first unresolved pass past ten minutes, and only there. */
  lemma StopsAtFirstOverdue(c: Cluster, ps: seq<Pass>, p: Pass, s: int)
    requires WaitsSince(c.cr.status) == Some(s) && AllWait(c, ps)
    requires FindsUnresolved(Run(c, ps), p) && Lifted(Run(c, ps), p)
    ensures GivesUp(Run(c, ps), p) <==> AskedAt(Run(c, ps), p) - s > 600
  {
    AnchorNeverMoves(c, ps, s);
    UnresolvedPass(Run(c, ps), p);
    hide *;
  }

  /** What Rancher is found to hold, when the lookup is answered. */
  function Found(c: Cluster, p: Pass): RancherTeardown {
    At(c, p.rancher).rancher
  }

  /** A cleanup job is at work in the vcluster, and has not been for more than ten minutes. */
  predicate CleanupIsYoung(r: RancherTeardown, deletedAt: int, now: int) {
    && r.cleanup.found && !r.cleanup.done && !r.cleanup.failed
    && now - (if r.cleanup.startedAt == 0 then deletedAt else r.cleanup.startedAt) <= 600
  }

  /** The Rancher step goes on exactly when there is no Rancher to leave, or it was waited for
      more than ten minutes, or it has forgotten the cluster and no young cleanup job runs. */
  lemma RancherGoesOnExactly(c: Cluster, copy: CR, st: Status, p: Pass)
    requires p.rancher.fate == Served
    ensures var g := RancherStep(c, copy, st, p);
            var r, now := Found(c, p), At(c, p.rancher).now;
            && (g.v == Continue <==>
                  || r.notConfigured || !r.enabled
                  || (if r.lookupFailed || r.stillKnown then WaitsSince(st).Some? && now - WaitsSince(st).value > 600
                      else !CleanupIsYoung(r, copy.deletedAt, now)))
            && (g.v == Continue ==> g.c == At(c, p.rancher))
  {
    hide HappenAll, Set, Unpair;
  }

  /** Hence a pass that finds Rancher still attached, or a young cleanup job, stops there: it may
      ask to unpair, and does nothing else. */
  lemma AttachedIsWaitedFor(c: Cluster, copy: CR, st: Status, p: Pass)
    requires p.rancher.fate == Served && !copy.spec.deletionProtection
    requires var r, now := Found(c, p), At(c, p.rancher).now;
             && !r.notConfigured && r.enabled
             && (if r.lookupFailed || r.stillKnown then !(WaitsSince(st).Some? && now - WaitsSince(st).value > 600)
                 else CleanupIsYoung(r, copy.deletedAt, now))
    ensures var g := RunSteps(STEPS, c, copy, st, p);
            g.v != Continue && (g.c.log == c.log || g.c.log == c.log + [AskedUnpair])
  {
    DeletionSafety.Unroll(c, copy, st, p);
    var g1 := ProtectionStep(c, copy, st);
    assert g1.c == c && g1.v == Continue && WaitsSince(g1.st) == WaitsSince(st);
    RancherGoesOnExactly(c, copy, g1.st, p);
    EventsKeepLog(c, p.rancher.before);
    EventsKeepLog(At(c, p.rancher), p.unpair.before);
    hide HappenAll, Set, Find, RunSteps, BackupStep, FinalStep, ProtectionStep, WaitsSince, Overdue, Anchor;
  }

  // ---- what the wait does not promise ----

  /** Unpairing need not have been tried: the very first pass gives up, without one call to
      unpair, exactly when the condition was left True by an observation more than ten
      minutes before. */
  lemma FirstPassMayGiveUp(c: Cluster, p: Pass)
    requires FindsUnresolved(c, p) && Lifted(c, p) && c.log == []
    ensures GivesUp(c, p) <==> WaitsSince(c.cr.status).Some? && AskedAt(c, p) - WaitsSince(c.cr.status).value > 600
    ensures GivesUp(c, p) ==> AskedUnpair !in AfterRancher(c, p).c.log
  {
    UnresolvedPass(c, p);
    EventsKeepLog(c, p.idle);
    EventsKeepLog(Begun(c, p), p.rancher.before);
    hide HappenAll, AfterRancher;
  }

  /** Giving up is not remembered: once its status is stored, the next unresolved pass
      unpairs again and starts another wait. */
  lemma GivingUpIsForgotten(c: Cluster, p: Pass, d: Cluster, q: Pass)
    requires FindsUnresolved(c, p) && Lifted(c, p) && GivesUp(c, p)
    requires SameCond(d.cr.status, AfterRancher(c, p).st, RancherPaired)
    requires FindsUnresolved(d, q) && Lifted(d, q)
    ensures !GivesUp(d, q) && WaitsSince(AfterRancher(d, q).st) == Some(AfterRancher(d, q).c.now)
  {
    UnresolvedPass(c, p);
    UnresolvedPass(d, q);
    hide AfterRancher, FindsUnresolved, Lifted;
  }

  /** A backup that was running before the deletion is adopted, but does not count once it
      ends. The status still says one is in progress: the step then neither goes on nor
      takes a backup, until two hours after it first said so. */
  lemma AdoptedBackupStalls(c: Cluster, cr: CR, st: Status, p: Pass)
    requires Pick(c.backups, cr.deletedAt) == NOTHING && Launched(st) && ProgressIsUnknown(st) && Alive(p.trigger)
    ensures var g := Judged(c, cr, st, Pick(c.backups, cr.deletedAt), Launched(st), p);
            && g.c == c && g.v != Continue
            && (Launched(g.st) <==> c.now - BackupSince(st) <= 7200)
  {
    hide Set, Find, Pick, TriggerBackup;
  }

  /** Such a backup, before and after it ends. */
  lemma AdoptedThenIgnored(b: Backup, since: int, end: int)
    requires !IsTerminalBackupPhase(b.phase) && 0 < b.started < since
    ensures Pick([b], since).found && Pick([b.(phase := "Completed", completed := end)], since) == NOTHING
  {
    var after := b.(phase := "Completed", completed := end);
    assert KindOf(b, since) == Running && KindOf(after, since) == Ignored;
    hide KindOf;
    assert [b][..0] == [] && [after][..0] == [];
    assert Latest([b], Running, since) == Some(b);
    assert forall k: Kind | k != Ignored :: Latest([after], k, since) == None;
  }

  // ---- two reads of the namespace in one pass ----

  predicate Removes(e: Entry) {
    e.DeletedNamespace?
  }

  /** A namespace was deleted since. */
  ghost predicate Deleted(before: seq<Entry>, after: seq<Entry>) {
    exists i | |before| <= i < |after| :: Removes(after[i])
  }

  /** A listing of the backups since found the deletion covered. */
  ghost predicate FoundCovered(before: seq<Entry>, after: seq<Entry>) {
    exists i | |before| <= i < |after| :: after[i] == ListedBackups(true)
  }

  /** The log went on, with neither of the two. */
  ghost predicate Neither(before: seq<Entry>, after: seq<Entry>) {
    before <= after && !Deleted(before, after) && !FoundCovered(before, after)
  }

  /** The log went on by entries, each of them none of the two. */
  lemma Added(before: seq<Entry>, after: seq<Entry>, e: Entry)
    requires after == before || after == before + [e]
    requires !Removes(e) && e != ListedBackups(true)
    ensures Neither(before, after)
  {
  }

  lemma NeitherThen(a: seq<Entry>, b: seq<Entry>, c: seq<Entry>)
    requires Neither(a, b) && b <= c
    ensures a <= c && (Deleted(a, c) <==> Deleted(b, c)) && (FoundCovered(a, c) <==> FoundCovered(b, c))
  {
    assert forall i | 0 <= i < |b| :: c[i] == b[i];
  }

  lemma ThenNeither(a: seq<Entry>, b: seq<Entry>, c: seq<Entry>)
    requires a <= b && Neither(b, c)
    ensures a <= c && (Deleted(a, c) <==> Deleted(a, b)) && (FoundCovered(a, c) <==> FoundCovered(a, b))
  {
    assert forall i | 0 <= i < |b| :: c[i] == b[i];
    if Deleted(a, b) {
      var i :| |a| <= i < |b| && Removes(b[i]);
      assert Removes(c[i]);
    }
    if FoundCovered(a, b) {
      var i :| |a| <= i < |b| && b[i] == ListedBackups(true);
      assert c[i] == ListedBackups(true);
    }
  }

  lemma LookAdds(c: Cluster, t: Turn)
    ensures Neither(c.log, LookAtNamespace(c, t).0.log)
  {
    EventsKeepLog(c, t.before);
    var c1 := At(c, t);
    Added(c.log, LookAtNamespace(c, t).0.log, LookedAt(if t.fate == Served then LookOf(c1.ns) else Unreadable, c1.now));
    hide HappenAll, Neither;
  }

  lemma RancherAdds(c: Cluster, copy: CR, st: Status, p: Pass)
    ensures Neither(c.log, RancherStep(c, copy, st, p).c.log)
  {
    EventsKeepLog(c, p.rancher.before);
    EventsKeepLog(At(c, p.rancher), p.unpair.before);
    hide HappenAll, Neither, Set, Find, Overdue, Anchor;
    Added(c.log, RancherStep(c, copy, st, p).c.log, AskedUnpair);
  }

  lemma JudgedAdds(c: Cluster, copy: CR, st: Status, seen: DeletionBackup, launched: bool, p: Pass)
    ensures var g := Judged(c, copy, st, seen, launched, p);
            Neither(c.log, g.c.log) && (g.v == Continue <==> seen.completed)
  {
    EventsKeepLog(c, p.trigger.before);
    hide HappenAll, Neither, Set, Find, Overdue, Anchor;
    Added(c.log, Judged(c, copy, st, seen, launched, p).c.log, CreatedBackup);
  }

  lemma InspectAdds(c: Cluster, t: Turn, since: int)
    ensures var (d, seen) := InspectBackups(c, t, since);
            && c.log <= d.log && !Deleted(c.log, d.log)
            && (FoundCovered(c.log, d.log) <==> seen.Some? && seen.value.completed)
            && (seen.Some? <==> t.fate == Served)
  {
    EventsKeepLog(c, t.before);
    hide HappenAll, Pick;
    var (d, seen) := InspectBackups(c, t, since);
    if seen.Some? {
      assert d.log[|c.log|] == ListedBackups(seen.value.completed);
    }
  }

  /** With no override, the backup step goes on exactly when it saw nothing to save, or found the
      deletion covered. */
  lemma BackupAdds(c: Cluster, copy: CR, st: Status, p: Pass)
    requires !OverrideDisarms(copy.override)
    ensures var g := BackupStep(c, copy, st, p);
            var absent := LookAtNamespace(c, p.firstLook).1 == SawAbsent && Alive(p.firstLook);
            && c.log <= g.c.log && !Deleted(c.log, g.c.log)
            && (g.v == Continue ==> (FoundCovered(c.log, g.c.log) <==> !absent))
            && (absent ==> g.v == Continue)
  {
    LookAdds(c, p.firstLook);
    var (c1, look) := LookAtNamespace(c, p.firstLook);
    InspectAdds(c1, p.inspect, copy.deletedAt);
    var (c2, seen) := InspectBackups(c1, p.inspect, copy.deletedAt);
    var st1 := AtStage(st, BackupPending);
    var launched := HasReason(st1.conditions, BackupCompleted, InProgress);
    hide HappenAll, LookAtNamespace, InspectBackups, Judged, Set, Find, OverrideDisarms, Deleted, FoundCovered;
    NeitherThen(c.log, c1.log, c2.log);
    if seen.Some? {
      JudgedAdds(c2, copy, st1, seen.value, launched, p);
      ThenNeither(c.log, c2.log, Judged(c2, copy, st1, seen.value, launched, p).c.log);
    }
  }

  lemma DeleteAdds(c: Cluster, t: Turn)
    ensures c.log <= DeleteNamespace(c, t).0.log && !FoundCovered(c.log, DeleteNamespace(c, t).0.log)
  {
    EventsKeepLog(c, t.before);
    hide HappenAll;
  }

  lemma RemovalAdds(c: Cluster, st: Status, p: Pass)
    ensures c.log <= RemovalStep(c, st, p).c.log && !FoundCovered(c.log, RemovalStep(c, st, p).c.log)
  {
    LookAdds(c, p.look);
    var (c1, look) := LookAtNamespace(c, p.look);
    DeleteAdds(c1, p.delete);
    var c2 := DeleteNamespace(c1, p.delete).0;
    LookAdds(c2, p.lookAgain);
    var (c3, again) := LookAtNamespace(c2, p.lookAgain);
    DeletionSafety.ConclusionTells(c1, st, look);
    DeletionSafety.ConclusionTells(c3, st, again);
    hide LookAtNamespace, DeleteNamespace, Conclusion, Deleted, FoundCovered, Set, Find;
    NeitherThen(c.log, c1.log, c2.log);
    ThenNeither(c.log, c2.log, c3.log);
  }

  lemma TeardownAdds(c: Cluster, st: Status, p: Pass)
    ensures c.log <= TeardownStep(c, st, p).c.log && !FoundCovered(c.log, TeardownStep(c, st, p).c.log)
  {
    EventsKeepLog(c, p.teardown.before);
    var c1 := Teardown(c, p.teardown).0;
    Added(c.log, c1.log, TornDown) by {
      hide HappenAll;
    }
    RemovalAdds(c1, AtStage(st, Destroying), p);
    var d := RemovalStep(c1, AtStage(st, Destroying), p).c;
    hide HappenAll, Teardown, RemovalStep, Deleted, FoundCovered, Set, Find;
    NeitherThen(c.log, c1.log, d.log);
  }

  lemma FinalAdds(c: Cluster, st: Status, p: Pass)
    ensures c.log <= FinalStep(c, st, p).c.log && !FoundCovered(c.log, FinalStep(c, st, p).c.log)
  {
    EventsKeepLog(c, p.protection.before);
    var (c1, protected) := GetProtection(c, p.protection);
    Added(c.log, c1.log, ReadProtection(protected == Some(true))) by {
      hide HappenAll;
    }
    EventsKeepLog(c1, p.lift.before);
    var c2 := LiftProtection(c1, p.lift).0;
    Added(c1.log, c2.log, LiftedProtection) by {
      hide HappenAll;
    }
    var st1 := AtStage(st, ProtectionRemoval).(protectionEnabled := false);
    TeardownAdds(c1, st1, p);
    TeardownAdds(c2, st1, p);
    hide HappenAll, GetProtection, LiftProtection, TeardownStep, Deleted, FoundCovered, Set, Find;
    NeitherThen(c.log, c1.log, c2.log);
    NeitherThen(c.log, c1.log, TeardownStep(c1, st1, p).c.log);
    NeitherThen(c1.log, c2.log, TeardownStep(c2, st1, p).c.log);
    NeitherThen(c.log, c1.log, TeardownStep(c2, st1, p).c.log);
  }

  /** A pass with no override deletes a namespace without having found the deletion covered,
      exactly when its first read saw none and its last step, which reads again, deletes one. */
  lemma BareDeletionExactly(c: Cluster, copy: CR, st: Status, p: Pass)
    requires DeletionSafety.SaysNo(copy.override)
    ensures var g := RunSteps(STEPS, c, copy, st, p);
            var g1 := ProtectionStep(c, copy, st);
            var g2 := RancherStep(g1.c, copy, g1.st, p);
            var g3 := BackupStep(g2.c, copy, g2.st, p);
            (Deleted(c.log, g.c.log) && !FoundCovered(c.log, g.c.log)) <==>
              && g1.v == Continue && g2.v == Continue
              && Alive(p.firstLook) && LookAtNamespace(g2.c, p.firstLook).1 == SawAbsent
              && Deleted(g3.c.log, FinalStep(g3.c, g3.st, p).c.log)
  {
    DeletionSafety.OverrideMeans(copy.override);
    DeletionSafety.Unroll(c, copy, st, p);
    var g1 := ProtectionStep(c, copy, st);
    RancherAdds(g1.c, copy, g1.st, p);
    var g2 := RancherStep(g1.c, copy, g1.st, p);
    BackupAdds(g2.c, copy, g2.st, p);
    var g3 := BackupStep(g2.c, copy, g2.st, p);
    FinalAdds(g3.c, g3.st, p);
    assert g1.c == c;
    var d := FinalStep(g3.c, g3.st, p).c;
    hide RunSteps, RancherStep, BackupStep, FinalStep, ProtectionStep, OverrideDisarms, LookAtNamespace;
    NeitherThen(c.log, g2.c.log, g3.c.log);
    NeitherThen(c.log, g2.c.log, d.log);
    Chained(g2.c.log, g3.c.log, d.log);
    hide Deleted, FoundCovered;
  }

  lemma Chained(a: seq<Entry>, b: seq<Entry>, c: seq<Entry>)
    requires a <= b <= c && !Deleted(a, b) && !FoundCovered(b, c)
    ensures Deleted(a, c) <==> Deleted(b, c)
    ensures FoundCovered(a, c) <==> FoundCovered(a, b)
  {
    assert forall i | 0 <= i < |b| :: c[i] == b[i];
    if FoundCovered(a, b) {
      var i :| |a| <= i < |b| && b[i] == ListedBackups(true);
      assert c[i] == ListedBackups(true);
    }
  }

  /** A pass that breaks the net: the namespace is created anew between its two reads. */
  predicate ReappearsBetweenReads(p: Pass, protected: bool) {
    && p.stale == None && p.idle == []
    && p.rancher == Turn([], Served) && p.firstLook == Turn([], Served)
    && p.protection == Turn([], Served) && p.teardown == Turn([], Served)
    && p.look == Turn([NamespaceAppears(protected)], Served) && p.delete == Turn([], Served)
  }

  /** With the namespace absent at the first read and back at the second, it is deleted
      though no backup exists and nobody lifted the demand for one. */
  lemma ReappearingNamespaceIsDeletedBare(c: Cluster, p: Pass, protected: bool)
    requires ReappearsBetweenReads(p, protected)
    requires c.ns == Absent && c.backups == [] && c.cr.finalizer && c.cr.wellPlaced
    requires !c.cr.spec.deletionProtection && DeletionSafety.SaysNo(c.cr.override)
    requires !c.rancher.enabled && !c.rancher.notConfigured
    ensures var g := RunSteps(STEPS, Begun(c, p), c.cr, Opening(c.cr.status), p);
            DeletedNamespace(c.nextId) in g.c.log && !Covered(c.backups, c.cr.deletedAt)
  {
    var b, st0 := Begun(c, p), Opening(c.cr.status);
    DeletionSafety.OverrideMeans(c.cr.override);
    DeletionSafety.Unroll(b, c.cr, st0, p);
    hide Set, Find, OverrideDisarms, Conclusion, RunSteps;
    NothingHappens(c);
    var g1 := ProtectionStep(b, c.cr, st0);
    var g2 := RancherStep(g1.c, c.cr, g1.st, p);
    assert g2.c == b && g2.v == Continue;
    var g3 := BackupStep(g2.c, c.cr, g2.st, p);
    assert g3.v == Continue && g3.c == Logged(b, LookedAt(SawAbsent, b.now));
    BareDelete(g3.c, g3.st, p, protected);
  }

  lemma NothingHappens(c: Cluster)
    ensures HappenAll(c, []) == c
  {
  }

  lemma BareDelete(c: Cluster, st: Status, p: Pass, protected: bool)
    requires ReappearsBetweenReads(p, protected) && c.ns == Absent
    ensures DeletedNamespace(c.nextId) in FinalStep(c, st, p).c.log
  {
    hide Set, Find, Conclusion;
    NothingHappens(c);
    var read := Logged(c, ReadProtection(false));
    assert GetProtection(c, p.protection).0 == read;
    NothingHappens(read);
    var c1 := Logged(read, TornDown);
    assert Teardown(read, p.teardown) == (c1, true);
    assert [NamespaceAppears(protected)][..0] == [];
    var c2 := c1.(ns := Live(c1.nextId, protected), nextId := c1.nextId + 1);
    assert HappenAll(c1, [NamespaceAppears(protected)]) == c2;
    var c3 := Logged(c2, LookedAt(SawLive, c2.now));
    assert LookAtNamespace(c1, p.look).0 == c3;
    var c4 := DeleteNamespace(c3, p.delete).0;
    assert c4.log == c3.log + [DeletedNamespace(c.nextId)];
    EventsKeepLog(c4, p.lookAgain.before);
    hide HappenAll, GetProtection, Teardown, DeleteNamespace, LookOf;
    var st1 := AtStage(AtStage(st, ProtectionRemoval).(protectionEnabled := false), Destroying);
    assert FinalStep(c, st, p) == RemovalStep(c1, st1, p);
    var (c5, again) := LookAtNamespace(c4, p.lookAgain);
    assert c4.log <= c5.log;
    DeletionSafety.ConclusionTells(c5, st1, again);
    assert RemovalStep(c1, st1, p).c == c5;
    assert c4.log[|c3.log|] == DeletedNamespace(c.nextId);
  }
}
