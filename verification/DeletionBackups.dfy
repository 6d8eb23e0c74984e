/**
 How many backups a deletion takes: the finalizer writes down no name, it finds its
 backup again in Velero.
 */
module DeletionBackups {
  import opened Wrappers
  import opened Turns
  import opened Conditions
  import opened VClusters
  import opened BackupSelection
  import opened DeletionWorld
  import opened Deletion
  import opened DeletionSafety

  function Creations(log: seq<Entry>): nat {
    if log == [] then 0 else Creations(log[..|log| - 1]) + if log[|log| - 1] == CreatedBackup then 1 else 0
  }

  /** A backup this deletion will find for as long as Velero keeps it: not started
      before it, and dated once it is over. */
  predicate Findable(b: Backup, since: int) {
    && (b.started != 0 ==> b.started >= since)
    && (IsTerminalBackupPhase(b.phase) ==> When(b) != 0 && When(b) >= since)
  }

  ghost predicate AnyFindable(backups: seq<Backup>, since: int) {
    exists i | 0 <= i < |backups| :: Findable(backups[i], since)
  }

  ghost predicate OneBackup(c: Cluster) {
    && c.cr.wellPlaced && c.now >= c.cr.deletedAt > 0
    && Creations(c.log) <= 1
    && (Creations(c.log) == 1 ==> AnyFindable(c.backups, c.cr.deletedAt))
  }

  /** Velero keeps its backups, and dates those that end. */
  predicate Kept(e: Event) {
    !e.VeleroForgets? && !e.VeleroRejects?
  }

  ghost predicate KeptAll(es: seq<Event>) {
    forall e | e in es :: Kept(e)
  }

  ghost predicate KeptPass(p: Pass) {
    && KeptAll(p.idle) && KeptAll(p.rancher.before) && KeptAll(p.unpair.before)
    && KeptAll(p.firstLook.before) && KeptAll(p.inspect.before) && KeptAll(p.trigger.before)
    && KeptAll(p.protection.before) && KeptAll(p.lift.before) && KeptAll(p.teardown.before)
    && KeptAll(p.look.before) && KeptAll(p.delete.before) && KeptAll(p.lookAgain.before)
    && KeptAll(p.store.before) && KeptAll(p.release.before)
  }

  lemma FindableIsFound(backups: seq<Backup>, since: int)
    requires AnyFindable(backups, since)
    ensures Pick(backups, since).found
  {
    var i :| 0 <= i < |backups| && Findable(backups[i], since);
    assert KindOf(backups[i], since) != Ignored;
    LatestIsLatest(backups, KindOf(backups[i], since), since);
    hide Latest, KindOf;
  }

  /** Later in the same run: the same deletion, its creations and what it can find kept. */
  ghost predicate Later(c: Cluster, c': Cluster) {
    && c'.cr.deletedAt == c.cr.deletedAt && c'.cr.wellPlaced == c.cr.wellPlaced && c'.now >= c.now
    && Creations(c'.log) == Creations(c.log)
    && (AnyFindable(c.backups, c.cr.deletedAt) ==> AnyFindable(c'.backups, c.cr.deletedAt))
  }

  lemma EventIsLater(c: Cluster, e: Event)
    requires Kept(e) && c.now >= c.cr.deletedAt > 0
    ensures Later(c, Happen(c, e))
  {
    hide Creations, IsTerminalBackupPhase;
    if AnyFindable(c.backups, c.cr.deletedAt) {
      var i :| 0 <= i < |c.backups| && Findable(c.backups[i], c.cr.deletedAt);
      assert i < |Happen(c, e).backups|;
      assert Findable(Happen(c, e).backups[i], c.cr.deletedAt) by {
        InProgressRuns();
      }
    }
  }

  lemma InProgressRuns()
    ensures !IsTerminalBackupPhase("InProgress") && !IsTerminalBackupPhase("")
  {
  }

  lemma {:induction false} EventsAreLater(c: Cluster, es: seq<Event>)
    requires KeptAll(es) && c.now >= c.cr.deletedAt > 0
    ensures Later(c, HappenAll(c, es)) && HappenAll(c, es).log == c.log
  {
    hide Happen, Creations, AnyFindable, Kept;
    if es == [] {
    } else {
      EventsAreLater(c, es[..|es| - 1]);
      var d := HappenAll(c, es[..|es| - 1]);
      EventIsLater(d, es[|es| - 1]);
      EventKeepsLog(d, es[|es| - 1]);
    }
  }

  lemma LoggedIsLater(c: Cluster, e: Entry)
    requires e != CreatedBackup
    ensures Later(c, Logged(c, e))
  {
    var l := c.log + [e];
    assert l[..|l| - 1] == c.log;
  }

  lemma LaterIsOne(c: Cluster, c': Cluster)
    requires OneBackup(c) && Later(c, c')
    ensures OneBackup(c')
  {
    hide Creations, AnyFindable;
  }

  // ---- step by step ----

  lemma RancherOne(c: Cluster, copy: CR, st: Status, p: Pass)
    requires OneBackup(c) && KeptPass(p)
    ensures Later(c, RancherStep(c, copy, st, p).c)
  {
    hide Creations, AnyFindable, HappenAll, Set, Find, Overdue;
    EventsAreLater(c, p.rancher.before);
    var c1 := At(c, p.rancher);
    EventsAreLater(c1, p.unpair.before);
    LoggedIsLater(At(c1, p.unpair), AskedUnpair);
  }

  lemma LookIsLater(c: Cluster, t: Turn)
    requires KeptAll(t.before) && c.now >= c.cr.deletedAt > 0
    ensures Later(c, LookAtNamespace(c, t).0)
  {
    hide Creations, AnyFindable, HappenAll;
    EventsAreLater(c, t.before);
    var c1 := At(c, t);
    LoggedIsLater(c1, LookedAt(if t.fate == Served then LookOf(c1.ns) else Unreadable, c1.now));
  }

  lemma InspectIsLater(c: Cluster, t: Turn, since: int)
    requires KeptAll(t.before) && c.now >= c.cr.deletedAt > 0 && since == c.cr.deletedAt
    ensures var (c', seen) := InspectBackups(c, t, since);
            Later(c, c') && (seen.Some? && !seen.value.found ==> !AnyFindable(c'.backups, since))
  {
    EventsAreLater(c, t.before);
    hide Creations, AnyFindable, HappenAll, Pick;
    var c1 := At(c, t);
    LoggedIsLater(c1, ListedBackups(Pick(c1.backups, since).completed));
    if AnyFindable(c1.backups, since) {
      FindableIsFound(c1.backups, since);
    }
  }

  lemma TriggerOne(c: Cluster, t: Turn, name: string)
    requires OneBackup(c) && KeptAll(t.before) && Creations(c.log) == 0
    ensures OneBackup(TriggerBackup(c, t, name).0)
  {
    hide HappenAll;
    EventsAreLater(c, t.before);
    var c1 := At(c, t);
    var b := Backup(name, "", 0, 0);
    var l := c1.log + [CreatedBackup];
    assert l[..|l| - 1] == c1.log;
    InProgressRuns();
    assert (c1.backups + [b])[|c1.backups|] == b;
    assert Findable(b, c1.cr.deletedAt);
  }

  lemma BackupOne(c: Cluster, copy: CR, st: Status, p: Pass)
    requires OneBackup(c) && KeptPass(p) && copy.deletedAt == c.cr.deletedAt
    ensures var g := BackupStep(c, copy, st, p);
            OneBackup(g.c) && g.c.cr.deletedAt == c.cr.deletedAt
  {
    hide Creations, AnyFindable, HappenAll, LookAtNamespace, InspectBackups, OverrideDisarms, Set, Find, Overdue;
    LookIsLater(c, p.firstLook);
    var c1 := LookAtNamespace(c, p.firstLook).0;
    InspectIsLater(c1, p.inspect, copy.deletedAt);
    var (c2, seen) := InspectBackups(c1, p.inspect, copy.deletedAt);
    LaterIsOne(c, c1);
    LaterIsOne(c1, c2);
    if seen.Some? && !seen.value.found {
      assert Creations(c2.log) == 0;
      TriggerOne(c2, p.trigger, p.backupName);
      EventsAreLater(c2, p.trigger.before);
    }
  }

  lemma DeleteIsLater(c: Cluster, t: Turn)
    requires KeptAll(t.before) && c.now >= c.cr.deletedAt > 0
    ensures Later(c, DeleteNamespace(c, t).0)
  {
    hide Creations, AnyFindable, HappenAll;
    EventsAreLater(c, t.before);
    var c1 := At(c, t);
    if !c1.ns.Absent? {
      LoggedIsLater(c1, DeletedNamespace(c1.ns.id));
    }
  }

  lemma RemovalOne(c: Cluster, st: Status, p: Pass)
    requires KeptPass(p) && c.now >= c.cr.deletedAt > 0
    ensures Later(c, RemovalStep(c, st, p).c)
  {
    hide Later, LookAtNamespace, DeleteNamespace, Conclusion, KeptAll;
    assert KeptAll(p.look.before) && KeptAll(p.delete.before) && KeptAll(p.lookAgain.before);
    LookIsLater(c, p.look);
    var (c1, look) := LookAtNamespace(c, p.look);
    LaterTime(c, c1);
    ConclusionTells(c1, st, look);
    if look == SawLive {
      DeleteIsLater(c1, p.delete);
      var c2 := DeleteNamespace(c1, p.delete).0;
      LaterTime(c1, c2);
      LookIsLater(c2, p.lookAgain);
      var (c3, again) := LookAtNamespace(c2, p.lookAgain);
      ConclusionTells(c3, st, again);
      LaterTwice(c, c1, c2);
      LaterTwice(c, c2, c3);
    }
  }

  lemma LaterTime(c: Cluster, c': Cluster)
    requires Later(c, c')
    ensures c'.now >= c.now && c'.cr.deletedAt == c.cr.deletedAt
  {
  }

  lemma LaterTwice(a: Cluster, b: Cluster, c: Cluster)
    requires Later(a, b) && Later(b, c)
    ensures Later(a, c)
  {
  }

  lemma ProtectionIsLater(c: Cluster, t: Turn)
    requires KeptAll(t.before) && c.now >= c.cr.deletedAt > 0
    ensures Later(c, GetProtection(c, t).0)
  {
    hide Creations, AnyFindable, HappenAll;
    EventsAreLater(c, t.before);
    var c1 := At(c, t);
    LoggedIsLater(c1, ReadProtection(!c1.ns.Absent? && c1.ns.protected));
  }

  lemma LiftIsLater(c: Cluster, t: Turn)
    requires KeptAll(t.before) && c.now >= c.cr.deletedAt > 0
    ensures Later(c, LiftProtection(c, t).0)
  {
    hide Creations, AnyFindable, HappenAll;
    EventsAreLater(c, t.before);
    var c1 := At(c, t);
    if !c1.ns.Absent? {
      LoggedIsLater(c1.(ns := c1.ns.(protected := false)), LiftedProtection);
    }
  }

  lemma TeardownIsLater(c: Cluster, t: Turn)
    requires KeptAll(t.before) && c.now >= c.cr.deletedAt > 0
    ensures Later(c, Teardown(c, t).0)
  {
    hide Creations, AnyFindable, HappenAll;
    EventsAreLater(c, t.before);
    LoggedIsLater(At(c, t), TornDown);
  }

  lemma TeardownOne(c: Cluster, st: Status, p: Pass)
    requires KeptPass(p) && c.now >= c.cr.deletedAt > 0
    ensures Later(c, TeardownStep(c, st, p).c)
  {
    TeardownIsLater(c, p.teardown);
    var c1 := Teardown(c, p.teardown).0;
    LaterTime(c, c1);
    hide Later, Teardown, RemovalStep, KeptAll, Set, Find;
    RemovalOne(c1, AtStage(st, Destroying), p);
    LaterTwice(c, c1, RemovalStep(c1, AtStage(st, Destroying), p).c);
  }

  lemma FinalOne(c: Cluster, st: Status, p: Pass)
    requires KeptPass(p) && c.now >= c.cr.deletedAt > 0
    ensures Later(c, FinalStep(c, st, p).c)
  {
    ProtectionIsLater(c, p.protection);
    var c1 := GetProtection(c, p.protection).0;
    LaterTime(c, c1);
    LiftIsLater(c1, p.lift);
    var c2 := LiftProtection(c1, p.lift).0;
    LaterTime(c1, c2);
    hide Later, GetProtection, LiftProtection, TeardownStep, KeptAll, Set, Find;
    var st1 := AtStage(st, ProtectionRemoval).(protectionEnabled := false);
    TeardownOne(c1, st1, p);
    TeardownOne(c2, st1, p);
    LaterTwice(c, c1, c2);
    LaterTwice(c, c1, TeardownStep(c1, st1, p).c);
    LaterTwice(c, c2, TeardownStep(c2, st1, p).c);
  }

  lemma SequenceOne(c: Cluster, copy: CR, st: Status, p: Pass)
    requires OneBackup(c) && KeptPass(p) && copy.deletedAt == c.cr.deletedAt
    ensures var g := RunSteps(STEPS, c, copy, st, p);
            OneBackup(g.c) && g.c.cr.deletedAt == c.cr.deletedAt
  {
    hide Creations, AnyFindable, KeptPass, RancherStep, BackupStep, FinalStep, RunSteps, Set, Find;
    Unroll(c, copy, st, p);
    var g1 := ProtectionStep(c, copy, st);
    if g1.v == Continue {
      RancherOne(g1.c, copy, g1.st, p);
      var g2 := RancherStep(g1.c, copy, g1.st, p);
      LaterIsOne(g1.c, g2.c);
      BackupOne(g2.c, copy, g2.st, p);
      var g3 := BackupStep(g2.c, copy, g2.st, p);
      if g3.v == Continue {
        FinalOne(g3.c, g3.st, p);
        LaterIsOne(g3.c, FinalStep(g3.c, g3.st, p).c);
      }
    }
  }

  lemma CloseOne(g: Go, version: nat, p: Pass)
    requires OneBackup(g.c) && KeptPass(p)
    ensures OneBackup(Closing(g, version, p).0)
  {
    hide Creations, AnyFindable, HappenAll, Concludes;
    EventsAreLater(g.c, p.store.before);
    var c1 := At(g.c, p.store);
    var c2 := c1.(cr := c1.cr.(status := g.st, version := version + 1));
    LoggedIsLater(c2, StoredStatus(Concludes(g.st)));
    var c3 := StoreStatus(g.c, p.store, version, g.st).0;
    assert OneBackup(c3);
    EventsAreLater(c3, p.release.before);
    var c4 := At(c3, p.release);
    LoggedIsLater(c4.(cr := c4.cr.(finalizer := false, version := version + 2)), Released);
  }

  lemma PassOne(c: Cluster, p: Pass)
    requires OneBackup(c) && KeptPass(p)
    ensures OneBackup(Reconcile(c, p).0)
  {
    EventsAreLater(c, p.idle);
    hide Creations, AnyFindable, OverrideDisarms, RunSteps, HappenAll, Closing, KeptAll;
    var c0 := HappenAll(c, p.idle);
    var copy := Copy(c0, p);
    if copy.finalizer {
      var first := Started(!copy.spec.deletionProtection, copy.override);
      LoggedIsLater(c0, first);
      var begun := Logged(c0, first);
      LaterIsOne(c0, begun);
      SequenceOne(begun, copy, Opening(copy.status), p);
      CloseOne(RunSteps(STEPS, begun, copy, Opening(copy.status), p), copy.version, p);
    }
  }

  /** Over any number of passes, crashes and lost calls or status writes: at most one
      backup is created, as long as Velero keeps its backups and dates those that end. */
  lemma {:induction false} AtMostOneBackup(c: Cluster, ps: seq<Pass>)
    requires c.cr.wellPlaced && c.now >= c.cr.deletedAt > 0 && c.log == []
    requires forall p | p in ps :: KeptPass(p)
    ensures Creations(Run(c, ps).log) <= 1
    ensures OneBackup(Run(c, ps))
  {
    if ps == [] {
    } else {
      hide Reconcile, KeptPass, AnyFindable, Creations;
      AtMostOneBackup(c, ps[..|ps| - 1]);
      PassOne(Run(c, ps[..|ps| - 1]), ps[|ps| - 1]);
    }
  }

  // ---- exactly when a backup is taken ----

  /** No backup in the list counts for the deletion: none runs, and none that is over is dated
      at or after it. */
  ghost predicate NoneCounts(backups: seq<Backup>, since: int) {
    forall i | 0 <= i < |backups| :: KindOf(backups[i], since) == Ignored
  }

  lemma FoundMeans(backups: seq<Backup>, since: int)
    ensures Pick(backups, since).found <==> !NoneCounts(backups, since)
  {
    PickIsTheRule(backups, since);
    hide KindOf, Latest;
  }

  /** A backup is taken exactly when none in the list counts, the status does not say one was
      started, and the call takes effect. */
  lemma TakesBackupExactly(c: Cluster, cr: CR, st: Status, launched: bool, p: Pass)
    ensures var g := Judged(c, cr, st, Pick(c.backups, cr.deletedAt), launched, p);
            Creations(g.c.log) == Creations(c.log) +
              if NoneCounts(c.backups, cr.deletedAt) && !launched && TakesEffect(p.trigger) then 1 else 0
  {
    FoundMeans(c.backups, cr.deletedAt);
    PickIsTheRule(c.backups, cr.deletedAt);
    EventsKeepLog(c, p.trigger.before);
    var l := c.log + [CreatedBackup];
    assert l[..|l| - 1] == c.log;
    hide HappenAll, Pick, NoneCounts, Set, Find;
  }

  /** So for the whole step, from what it read on its way. */
  lemma StepTakesBackupExactly(c: Cluster, copy: CR, st: Status, p: Pass)
    ensures var (c1, look) := LookAtNamespace(c, p.firstLook);
            var backups := At(c1, p.inspect).backups;
            Creations(BackupStep(c, copy, st, p).c.log) == Creations(c.log) +
              if Alive(p.firstLook) && look != SawAbsent && SaysNo(copy.override)
                 && p.inspect.fate == Served && NoneCounts(backups, copy.deletedAt)
                 && !HasReason(st.conditions, BackupCompleted, InProgress) && TakesEffect(p.trigger) then 1 else 0
  {
    OverrideMeans(copy.override);
    LookTakesNone(c, p.firstLook);
    var (c1, look) := LookAtNamespace(c, p.firstLook);
    InspectTakesNone(c1, p.inspect, copy.deletedAt);
    var (c2, seen) := InspectBackups(c1, p.inspect, copy.deletedAt);
    var st1 := AtStage(st, BackupPending);
    TakesBackupExactly(c2, copy, st1, HasReason(st.conditions, BackupCompleted, InProgress), p);
    hide Creations, HappenAll, LookAtNamespace, InspectBackups, OverrideDisarms, SaysNo, Set, Find, Judged, NoneCounts, Pick;
  }

  lemma LookTakesNone(c: Cluster, t: Turn)
    ensures Creations(LookAtNamespace(c, t).0.log) == Creations(c.log)
  {
    EventsKeepLog(c, t.before);
    var c1 := At(c, t);
    LoggedIsLater(c1, LookedAt(if t.fate == Served then LookOf(c1.ns) else Unreadable, c1.now));
    hide HappenAll, Creations;
  }

  lemma InspectTakesNone(c: Cluster, t: Turn, since: int)
    ensures var (d, seen) := InspectBackups(c, t, since);
            && Creations(d.log) == Creations(c.log) && d.backups == At(c, t).backups
            && (seen.Some? <==> t.fate == Served) && (seen.Some? ==> seen.value == Pick(d.backups, since))
  {
    EventsKeepLog(c, t.before);
    var c1 := At(c, t);
    LoggedIsLater(c1, ListedBackups(Pick(c1.backups, since).completed));
    hide HappenAll, Creations, Pick;
  }

  /** A backup Velero rejects is never dated, so it does not count: with the status of the
      pass that took it lost, every such pass takes another. */
  lemma RejectedBackupIsTakenAgain(c: Cluster, cr: CR, st: Status, p: Pass)
    requires forall b | b in c.backups :: b.phase == "FailedValidation" && b.started == 0 && b.completed == 0
    ensures var g := Judged(c, cr, st, Pick(c.backups, cr.deletedAt), HasReason(st.conditions, BackupCompleted, InProgress), p);
            Creations(g.c.log) > Creations(c.log) <==>
              !HasReason(st.conditions, BackupCompleted, InProgress) && TakesEffect(p.trigger)
  {
    forall i | 0 <= i < |c.backups|
      ensures KindOf(c.backups[i], cr.deletedAt) == Ignored
    {
      assert c.backups[i] in c.backups;
    }
    TakesBackupExactly(c, cr, st, HasReason(st.conditions, BackupCompleted, InProgress), p);
    hide Judged, Creations, Pick, KindOf, HasReason;
  }
}
