/**
 What the finalizer tells of the step it stopped at, and exactly where each of its reads and
 calls takes it.
 */
module DeletionTells {
  import opened Wrappers
  import opened Turns
  import opened Conditions
  import opened VClusters
  import opened BackupSelection
  import opened DeletionWorld
  import opened Deletion
  import DeletionSafety

  predicate Shows(st: Status, kind: CondType, status: ConditionStatus, reason: Reason) {
    HasStatus(st.conditions, kind, status) && HasReason(st.conditions, kind, reason)
  }

  lemma CondShows(st: Status, kind: CondType, status: ConditionStatus, reason: Reason, now: int)
    ensures var told := WithCond(st, kind, status, reason, now);
            && Shows(told, kind, status, reason) && told.deletion == st.deletion
            && forall k | k != kind :: Find(told.conditions, k) == Find(st.conditions, k)
  {
    hide Set, Find;
  }

  // ---- the backup ----

  predicate AnyRunning(backups: seq<Backup>) {
    exists b | b in backups :: b.phase !in {"Completed", "Failed", "PartiallyFailed", "FailedValidation", "Deleting"}
  }

  predicate AnyFailed(backups: seq<Backup>, since: int) {
    exists b | b in backups ::
      b.phase in {"Failed", "PartiallyFailed", "FailedValidation", "Deleting"} && InTime(b, since)
  }

  /** The step lists the backups: a namespace is there, or cannot be read, and nobody decided to
      do without. */
  ghost predicate Lists(c: Cluster, copy: CR, p: Pass) {
    && Alive(p.firstLook) && LookAtNamespace(c, p.firstLook).1 != SawAbsent
    && DeletionSafety.SaysNo(copy.override) && p.inspect.fate == Served
  }

  /** The cluster the backups are listed in. */
  function Listed(c: Cluster, p: Pass): Cluster {
    At(LookAtNamespace(c, p.firstLook).0, p.inspect)
  }

  lemma VerdictMeans(backups: seq<Backup>, since: int)
    ensures var r := Pick(backups, since);
            && (r.completed <==> !AnyRunning(backups) && Covered(backups, since))
            && (r.failed <==> !AnyRunning(backups) && !Covered(backups, since) && AnyFailed(backups, since))
            && (r.found && !r.completed && !r.failed <==> AnyRunning(backups))
  {
    CompletedMeansCovered(backups, since);
    VerdictIsOfABackup(backups, since);
    PickIsTheRule(backups, since);
    forall b: Backup
      ensures KindOf(b, since) == Running <==> b.phase !in OVER
      ensures KindOf(b, since) == Broken <==> b.phase in OVER - {"Completed"} && InTime(b, since)
      ensures KindOf(b, since) == Done <==> b.phase == "Completed" && InTime(b, since)
    {
      KindMeans(b, since);
    }
    hide KindOf, InTime, TimeOf, Pick;
  }

  /** Where the listed backups take the step. A running one is waited for, for two hours from when
      it began; without any, one in time covers the deletion; a failed one in time stops it; and
      where there is none of these, one is asked for, unless the status says one already was. */
  lemma BackupsDecide(c: Cluster, copy: CR, st: Status, p: Pass)
    requires Lists(c, copy, p)
    ensures var g := BackupStep(c, copy, st, p);
            var d, since := Listed(c, p), copy.deletedAt;
            var quiet := !AnyRunning(d.backups);
            var began := Pick(d.backups, since).startedAt;
            && (g.v == Continue <==> quiet && Covered(d.backups, since))
            && (g.v == Continue ==> Shows(g.st, BackupCompleted, ConditionTrue, Reason.Completed))
            && (quiet && !Covered(d.backups, since) && AnyFailed(d.backups, since) ==>
                  g.v == Wait(0) && g.c.backups == d.backups && Shows(g.st, BackupCompleted, ConditionFalse, BackupFailed))
            && (!quiet ==>
                  && g.c.backups == d.backups
                  && if d.now - (if began == 0 then since else began) > 7200
                     then g.v == Wait(0) && Shows(g.st, BackupCompleted, ConditionFalse, BackupTimedOut)
                     else g.v == Wait(10) && Shows(g.st, BackupCompleted, ConditionUnknown, InProgress))
  {
    ListingDecides(c, copy, st, p);
    VerdictMeans(Listed(c, p).backups, copy.deletedAt);
    hide BackupStep, Pick, Covered, AnyRunning, AnyFailed, Listed, Lists, Shows;
  }

  lemma ListingDecides(c: Cluster, copy: CR, st: Status, p: Pass)
    requires Lists(c, copy, p)
    ensures var g := BackupStep(c, copy, st, p);
            var d, since := Listed(c, p), copy.deletedAt;
            var r := Pick(d.backups, since);
            && (g.v == Continue <==> r.completed)
            && (r.completed ==> Shows(g.st, BackupCompleted, ConditionTrue, Reason.Completed))
            && (!r.completed && r.failed ==>
                  g.v == Wait(0) && g.c.backups == d.backups && Shows(g.st, BackupCompleted, ConditionFalse, BackupFailed))
            && (r.found && !r.completed && !r.failed ==>
                  && g.c.backups == d.backups
                  && if d.now - (if r.startedAt == 0 then since else r.startedAt) > 7200
                     then g.v == Wait(0) && Shows(g.st, BackupCompleted, ConditionFalse, BackupTimedOut)
                     else g.v == Wait(10) && Shows(g.st, BackupCompleted, ConditionUnknown, InProgress))
  {
    StepIsJudged(c, copy, st, p);
    hide BackupStep, HappenAll, Pick, TriggerBackup, Set, Find, Lists, LookAtNamespace;
  }

  lemma StepIsJudged(c: Cluster, copy: CR, st: Status, p: Pass)
    requires Lists(c, copy, p)
    ensures var d := Listed(c, p);
            var r := Pick(d.backups, copy.deletedAt);
            BackupStep(c, copy, st, p) ==
            Judged(Logged(d, ListedBackups(r.completed)), copy, AtStage(st, BackupPending), r,
                   HasReason(st.conditions, BackupCompleted, InProgress), p)
  {
    DeletionSafety.OverrideMeans(copy.override);
    hide HappenAll, Pick, Judged, Set, Find, OverrideDisarms, LookAtNamespace;
  }

  /** With nothing listed that counts, a backup is asked for exactly when the status does not say
      that one was; what becomes of asking is told. */
  lemma NoBackupIsAskedFor(c: Cluster, copy: CR, st: Status, p: Pass)
    requires Lists(c, copy, p) && !Pick(Listed(c, p).backups, copy.deletedAt).found
    requires !HasReason(st.conditions, BackupCompleted, InProgress)
    ensures var g := BackupStep(c, copy, st, p);
            && (p.trigger.fate == Served ==>
                  && g.v == Wait(10)
                  && g.c.log == LookAtNamespace(c, p.firstLook).0.log + [ListedBackups(false), CreatedBackup]
                  && Shows(g.st, BackupCompleted, ConditionUnknown, InProgress))
            && (p.trigger.fate in {Refused, Lost} ==>
                  g.v == Wait(0) && Shows(g.st, BackupCompleted, ConditionFalse, BackupTriggerFailed))
  {
    StepIsJudged(c, copy, st, p);
    VerdictIsOfABackup(Listed(c, p).backups, copy.deletedAt);
    EventsKeepLog(c, p.firstLook.before);
    EventsKeepLog(LookAtNamespace(c, p.firstLook).0, p.inspect.before);
    EventsKeepLog(Logged(Listed(c, p), ListedBackups(false)), p.trigger.before);
    hide BackupStep, HappenAll, Pick, Set, Find, LookOf, Overdue;
  }

  // ---- the end ----

  /** When the namespace is last looked at: gone, or terminating for more than ten minutes, the
      deletion is over, and told so; otherwise it is looked at again in thirty seconds. */
  lemma LastLookDecides(c: Cluster, st: Status, look: Look)
    ensures var g := Conclusion(c, st, look);
            && g.c == c && (g.v == Continue || g.v == Wait(30))
            && (g.v == Continue <==> look == SawAbsent || (look.SawTerminating? && c.now - look.since > 600))
            && (g.v == Continue ==> Shows(g.st, Ready, ConditionFalse, Deleted))
            && Shows(g.st, NamespaceRemoved,
                     if look == SawAbsent then ConditionTrue else if g.v == Continue then ConditionUnknown else ConditionFalse,
                     if look == SawAbsent then NamespaceGone else if g.v == Continue then RemovalUnconfirmed
                     else if look == Unreadable then NamespaceStateUnknown else NamespaceTerminating)
  {
    hide Set, Find;
  }

  /** The calls the last step makes before it deletes anything. */
  datatype Obstacle = ProtectionUnread | ProtectionKept | TeardownRefused | Clear

  /** The first of them that fails. */
  function Met(c: Cluster, p: Pass): Obstacle {
    var (c1, protected) := GetProtection(c, p.protection);
    if p.protection.fate != Served then ProtectionUnread
    else if protected == Some(true) && !LiftProtection(c1, p.lift).1 then ProtectionKept
    else if p.teardown.fate != Served then TeardownRefused
    else Clear
  }

  /** The log went on with nothing but the protection read and lifted. */
  ghost predicate OnlyProtection(before: seq<Entry>, after: seq<Entry>) {
    before <= after && forall i | |before| <= i < |after| :: after[i].ReadProtection? || after[i].LiftedProtection?
  }

  /** An obstacle stops the last step before it tears anything down, and is told for what it is: a
      protection that cannot be read is waited for, the others are errors. */
  lemma ObstacleStops(c: Cluster, st: Status, p: Pass)
    requires Met(c, p) != Clear
    ensures var g := FinalStep(c, st, p);
            && g.v != Continue && OnlyProtection(c.log, g.c.log)
            && (g.v != Dead ==>
                  match Met(c, p)
                  case ProtectionUnread => g.v == Wait(30) && Shows(g.st, Ready, ConditionFalse, ProtectionUnknown)
                  case ProtectionKept => g.v == Error && Shows(g.st, Ready, ConditionFalse, ProtectionRemovalFailed)
                  case TeardownRefused => g.v == Error && Shows(g.st, Ready, ConditionFalse, TeardownFailed))
  {
    ProtectionLogs(c, p);
    ReadIsServed(c, p);
    var (c1, protected) := GetProtection(c, p.protection);
    ReadIsServed(c1, p);
    var c2 := LiftProtection(c1, p.lift).0;
    var st1 := AtStage(st, ProtectionRemoval);
    if Met(c, p) == ProtectionUnread {
      UnreadStops(c, st, p);
    } else if Met(c, p) == ProtectionKept {
      KeptStops(c, st, p);
    } else {
      TeardownRefusedStops(c1, st1.(protectionEnabled := false), p);
      TeardownRefusedStops(c2, st1.(protectionEnabled := false), p);
      hide GetProtection, LiftProtection, TeardownStep, WithCond, Shows, OnlyProtection, AtStage;
      assert FinalStep(c, st, p) == TeardownStep(if protected.value then c2 else c1, st1.(protectionEnabled := false), p);
    }
  }

  lemma UnreadStops(c: Cluster, st: Status, p: Pass)
    requires p.protection.fate != Served
    ensures var g := FinalStep(c, st, p);
            && g.c == GetProtection(c, p.protection).0
            && (g.v == Dead || (g.v == Wait(30) && Shows(g.st, Ready, ConditionFalse, ProtectionUnknown)))
  {
    hide HappenAll, LiftProtection, TeardownStep, Set, Find;
  }

  lemma KeptStops(c: Cluster, st: Status, p: Pass)
    requires Met(c, p) == ProtectionKept
    ensures var g := FinalStep(c, st, p);
            var c1 := GetProtection(c, p.protection).0;
            && g.c == LiftProtection(c1, p.lift).0
            && (g.v == Dead || (g.v == Error && Shows(g.st, Ready, ConditionFalse, ProtectionRemovalFailed)))
  {
    ReadIsServed(c, p);
    hide GetProtection, LiftProtection, TeardownStep, Set, Find;
  }

  lemma ReadIsServed(c: Cluster, p: Pass)
    ensures GetProtection(c, p.protection).1.Some? <==> p.protection.fate == Served
    ensures LiftProtection(c, p.lift).1 ==> p.lift.fate == Served
  {
    hide HappenAll;
  }

  lemma ProtectionLogs(c: Cluster, p: Pass)
    ensures var c1 := GetProtection(c, p.protection).0;
            OnlyProtection(c.log, c1.log) && OnlyProtection(c.log, LiftProtection(c1, p.lift).0.log)
  {
    EventsKeepLog(c, p.protection.before);
    var c1 := GetProtection(c, p.protection).0;
    EventsKeepLog(c1, p.lift.before);
    hide HappenAll;
  }

  lemma TeardownRefusedStops(c: Cluster, st: Status, p: Pass)
    requires p.teardown.fate != Served
    ensures var g := TeardownStep(c, st, p);
            && g.c.log == c.log
            && (g.v == Dead || (g.v == Error && Shows(g.st, Ready, ConditionFalse, TeardownFailed)))
  {
    EventsKeepLog(c, p.teardown.before);
    hide HappenAll, RemovalStep, Set, Find;
  }

  /** With no obstacle, a namespace is deleted exactly when it was just seen alive, is still there,
      and the deletion takes effect; a deletion that is refused is an error, and told. */
  lemma SeenAliveIsDeleted(c: Cluster, st: Status, p: Pass)
    requires Alive(p.look) && Alive(p.delete)
    ensures var g := RemovalStep(c, st, p);
            var (c1, look) := LookAtNamespace(c, p.look);
            var there := !At(c1, p.delete).ns.Absent?;
            && (look == SawLive && there && TakesEffect(p.delete) <==> |g.c.log| > |c1.log| && g.c.log[|c1.log|].DeletedNamespace?)
            && (look == SawLive && p.delete.fate != Served ==>
                  g.v == Error && Shows(g.st, Ready, ConditionFalse, NamespaceDeletionForbidden))
  {
    var (c1, look) := LookAtNamespace(c, p.look);
    DeletionLogs(c1, p);
    var (c2, ok) := DeleteNamespace(c1, p.delete);
    LookLogs(c2, p.lookAgain);
    LastLookDecides(c1, st, look);
    var (c3, again) := LookAtNamespace(c2, p.lookAgain);
    LastLookDecides(c3, st, again);
    CondShows(st, Ready, ConditionFalse, NamespaceDeletionForbidden, c2.now);
    hide DeleteNamespace, LookAtNamespace, Conclusion, WithCond, Shows, At;
  }

  lemma DeletionLogs(c: Cluster, p: Pass)
    ensures var (d, ok) := DeleteNamespace(c, p.delete);
            && (ok <==> p.delete.fate == Served) && c.log <= d.log
            && (if !At(c, p.delete).ns.Absent? && TakesEffect(p.delete)
                then |d.log| > |c.log| && d.log[|c.log|].DeletedNamespace? else d.log == c.log)
  {
    EventsKeepLog(c, p.delete.before);
    hide HappenAll;
  }

  lemma LookLogs(c: Cluster, t: Turn)
    ensures var (d, look) := LookAtNamespace(c, t);
            c.log <= d.log && (|d.log| > |c.log| ==> d.log[|c.log|].LookedAt?)
  {
    EventsKeepLog(c, t.before);
    hide HappenAll, LookOf;
  }

  // ---- the stage ----

  /** The stage of a status that is one step on, or none. */
  predicate AtOrSame(before: Status, after: Status, v: Verdict, stage: Stage) {
    after.phase == before.phase && (v.Wait? || v == Error ==> after.deletion.Some? && after.deletion.value.stage == stage)
  }

  lemma EarlyStages(c: Cluster, copy: CR, st: Status, p: Pass)
    ensures var g := ProtectionStep(c, copy, st); AtOrSame(st, g.st, g.v, Blocked)
    ensures var g := RancherStep(c, copy, st, p); AtOrSame(st, g.st, g.v, RancherUnpairing)
  {
    hide HappenAll, Set, Find, InspectRancher, Unpair, Overdue;
  }

  lemma BackupStage(c: Cluster, copy: CR, st: Status, p: Pass)
    ensures var g := BackupStep(c, copy, st, p); AtOrSame(st, g.st, g.v, BackupPending)
  {
    hide HappenAll, Set, Find, LookAtNamespace, InspectBackups, TriggerBackup, Overdue, OverrideDisarms;
  }

  lemma RemovalStage(c: Cluster, st: Status, p: Pass)
    ensures RemovalStep(c, st, p).st.phase == st.phase && RemovalStep(c, st, p).st.deletion == st.deletion
  {
    hide HappenAll, Set, Find, LookAtNamespace, DeleteNamespace;
  }

  lemma FinalStage(c: Cluster, st: Status, p: Pass)
    ensures var g := FinalStep(c, st, p);
            AtOrSame(st, g.st, g.v, if Met(c, p) == Clear then Destroying else ProtectionRemoval)
  {
    var c1 := GetProtection(c, p.protection).0;
    ReadIsServed(c, p);
    TeardownStage(c1, AtStage(st, ProtectionRemoval).(protectionEnabled := false), p);
    TeardownStage(LiftProtection(c1, p.lift).0, AtStage(st, ProtectionRemoval).(protectionEnabled := false), p);
    hide GetProtection, LiftProtection, TeardownStep, Set, Find;
  }

  lemma TeardownStage(c: Cluster, st: Status, p: Pass)
    requires st.deletion.Some? && st.deletion.value.stage == ProtectionRemoval
    ensures var g := TeardownStep(c, st, p);
            AtOrSame(st, g.st, g.v, if p.teardown.fate == Served then Destroying else ProtectionRemoval)
  {
    var c1 := Teardown(c, p.teardown).0;
    RemovalStage(c1, AtStage(st, Destroying), p);
    hide HappenAll, RemovalStep, Set, Find;
  }

  /** Where a sequence that does not go through stops. */
  function StopsAt(c: Cluster, copy: CR, st: Status, p: Pass): Stage {
    var g1 := ProtectionStep(c, copy, st);
    var g2 := RancherStep(g1.c, copy, g1.st, p);
    var g3 := BackupStep(g2.c, copy, g2.st, p);
    if g1.v != Continue then Blocked
    else if g2.v != Continue then RancherUnpairing
    else if g3.v != Continue then BackupPending
    else if Met(g3.c, p) == Clear then Destroying
    else ProtectionRemoval
  }

  /** The stage told is that of the step the sequence stopped at, and the object is still told as
      being deleted. */
  lemma StageIsTold(c: Cluster, copy: CR, status: Status, p: Pass)
    ensures var g := RunSteps(STEPS, c, copy, Opening(status), p);
            && g.st.phase == Deleting
            && (g.v.Wait? || g.v == Error ==>
                  g.st.deletion.Some? && g.st.deletion.value.stage == StopsAt(c, copy, Opening(status), p))
  {
    var st := Opening(status);
    DeletionSafety.Unroll(c, copy, st, p);
    var g1 := ProtectionStep(c, copy, st);
    EarlyStages(c, copy, st, p);
    EarlyStages(g1.c, copy, g1.st, p);
    var g2 := RancherStep(g1.c, copy, g1.st, p);
    BackupStage(g2.c, copy, g2.st, p);
    var g3 := BackupStep(g2.c, copy, g2.st, p);
    FinalStage(g3.c, g3.st, p);
    hide RunSteps, ProtectionStep, RancherStep, BackupStep, FinalStep, Met;
  }
}
