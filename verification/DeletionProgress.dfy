/**
 A deletion ends. In a world that answers, where time passes between passes, seen
 backups complete within two hours and nobody else takes backups, a measure goes down
 with every pass until the finalizer is gone. Rancher need not cooperate.
 */
module DeletionProgress {
  import opened Wrappers
  import opened Turns
  import opened Conditions
  import opened VClusters
  import opened BackupSelection
  import opened DeletionWorld
  import opened Deletion
  import DeletionSafety

  // ---- a cooperative world ----

  predicate Cooperative(e: Event) {
    || e.Tick? || e.VeleroStarts? || e.NamespaceVanishes? || e.RancherForgets? || e.CleanupEnds?
    || (e.VeleroFinishes? && e.phase == "Completed")
  }

  ghost predicate Helpful(t: Turn) {
    t.fate == Served && forall e | e in t.before :: Cooperative(e)
  }

  /** No backup has been seen running for more than two hours. */
  ghost predicate Punctual(backups: seq<Backup>, deletedAt: int, now: int) {
    forall i | 0 <= i < |backups| && !IsTerminalBackupPhase(backups[i].phase) ::
      now <= Anchor(backups[i].started, deletedAt) + BACKUP_GIVE_UP_AFTER
  }

  function Begun(c: Cluster, p: Pass): Cluster {
    var c := HappenAll(c, p.idle);
    Logged(c, Started(!c.cr.spec.deletionProtection, c.cr.override))
  }

  /** After the first two steps of a pass that works from the current object. */
  function AfterRancher(c: Cluster, p: Pass): Go {
    var b := Begun(c, p);
    var g := ProtectionStep(b, b.cr, Opening(b.cr.status));
    RancherStep(g.c, b.cr, g.st, p)
  }

  /** What the world is when the pass inspects the backups. */
  function Inspected(c: Cluster, p: Pass): Cluster {
    At(LookAtNamespace(AfterRancher(c, p).c, p.firstLook).0, p.inspect)
  }

  ghost predicate CooperativePass(c: Cluster, p: Pass) {
    && p.stale == None
    && (forall e | e in p.idle :: Cooperative(e)) && HappenAll(c, p.idle).now > c.now
    && Helpful(p.rancher) && Helpful(p.unpair) && Helpful(p.firstLook) && Helpful(p.inspect) && Helpful(p.trigger)
    && Helpful(p.protection) && Helpful(p.lift) && Helpful(p.teardown) && Helpful(p.look) && Helpful(p.delete)
    && Helpful(p.lookAgain) && Helpful(p.store) && Helpful(p.release)
    && Punctual(Inspected(c, p).backups, c.cr.deletedAt, Inspected(c, p).now)
  }

  ghost predicate NoFailure(backups: seq<Backup>, since: int) {
    forall i | 0 <= i < |backups| :: KindOf(backups[i], since) != Broken
  }

  /** Being deleted, protection lifted, no backup of this deletion failed; and the status
      only says a backup is in progress the way the operator does. */
  ghost predicate Deletable(c: Cluster) {
    && c.cr.finalizer && c.cr.wellPlaced && !c.cr.spec.deletionProtection
    && c.now >= c.cr.deletedAt > 0
    && NoFailure(c.backups, c.cr.deletedAt)
    && ProgressIsUnknown(c.cr.status)
  }

  predicate ProgressIsUnknown(st: Status) {
    HasReason(st.conditions, BackupCompleted, InProgress) ==> HasStatus(st.conditions, BackupCompleted, ConditionUnknown)
  }

  // ---- the measure ----

  predicate FreshRunning(b: Backup, since: int) {
    !IsTerminalBackupPhase(b.phase) && (b.started == 0 || b.started >= since)
  }

  ghost predicate AnyFreshRunning(backups: seq<Backup>, since: int) {
    exists i | 0 <= i < |backups| :: FreshRunning(backups[i], since)
  }

  /** How far the backups are from one that covers the deletion. */
  ghost function Rank(backups: seq<Backup>, since: int): nat {
    if Exists(backups, Done, since) then 0 else if AnyFreshRunning(backups, since) then 1 else 2
  }

  /** How much is left to the running backups. */
  function Work(backups: seq<Backup>): nat {
    if backups == [] then 0
    else
      var b := backups[|backups| - 1];
      Work(backups[..|backups| - 1]) + WorkOf(b)
  }

  function WorkOf(b: Backup): nat {
    if IsTerminalBackupPhase(b.phase) then 0 else if b.started == 0 then 2 else 1
  }

  /** When a running backup is given up, if there is one. */
  function Deadline(backups: seq<Backup>, deletedAt: int): int {
    if backups == [] then 0
    else
      var b := backups[|backups| - 1];
      if !IsTerminalBackupPhase(b.phase) then Anchor(b.started, deletedAt) + BACKUP_GIVE_UP_AFTER
      else Deadline(backups[..|backups| - 1], deletedAt)
  }

  function Standing(ns: Namespace): nat {
    if ns.Live? then 2 else if ns.Terminating? then 1 else 0
  }

  function Left(seconds: int): nat {
    if seconds > 0 then seconds else 0
  }

  function Attached(r: RancherTeardown): nat {
    if Unresolved(r) then 2 else if CleanupRuns(r) then 1 else 0
  }

  function RancherWait(r: RancherTeardown, st: Status, deletedAt: int, now: int): nat {
    if Unresolved(r) then
      match Find(st.conditions, RancherPaired)
      case Some(c) => if c.status == ConditionTrue then Left(c.since + RANCHER_GIVE_UP_AFTER + 1 - now) else RANCHER_GIVE_UP_AFTER + 2
      case None => RANCHER_GIVE_UP_AFTER + 2
    else if CleanupRuns(r) then Left(Anchor(r.cleanup.startedAt, deletedAt) + RANCHER_GIVE_UP_AFTER + 1 - now)
    else 0
  }

  predicate Launched(st: Status) {
    HasReason(st.conditions, BackupCompleted, InProgress)
  }

  function BackupSince(st: Status): int {
    match Find(st.conditions, BackupCompleted) case Some(c) => c.since case None => 0
  }

  /** Whether the backup step still has something to wait for. */
  ghost function Hoping(c: Cluster): nat {
    if OverrideDisarms(c.cr.override) then 0
    else if Work(c.backups) > 0 then 1
    else if Rank(c.backups, c.cr.deletedAt) == 2 && Launched(c.cr.status) then 1
    else 0
  }

  ghost function WaitLeft(c: Cluster): nat {
    if !OverrideDisarms(c.cr.override) && Work(c.backups) > 0 then Left(Deadline(c.backups, c.cr.deletedAt) - c.now)
    else if Hoping(c) == 1 then Left(BackupSince(c.cr.status) + BACKUP_GIVE_UP_AFTER + 1 - c.now)
    else if c.ns.Terminating? then Left(c.ns.since + NAMESPACE_GIVE_UP_AFTER + 1 - c.now)
    else 0
  }

  datatype Measure = Measure(rank: nat, work: nat, standing: nat, hoping: nat, attached: nat, wait: nat, rancher: nat)

  ghost function MeasureOf(c: Cluster): Measure {
    var disarmed := OverrideDisarms(c.cr.override);
    Measure(if disarmed then 0 else Rank(c.backups, c.cr.deletedAt),
            if disarmed then 0 else Work(c.backups),
            Standing(c.ns), Hoping(c), Attached(c.rancher), WaitLeft(c),
            RancherWait(c.rancher, c.cr.status, c.cr.deletedAt, c.now))
  }

  /** Lexicographic order. */
  predicate Less(a: Measure, b: Measure) {
    a.rank < b.rank || (a.rank == b.rank && (
      a.work < b.work || (a.work == b.work && (
        a.standing < b.standing || (a.standing == b.standing && (
          a.hoping < b.hoping || (a.hoping == b.hoping && (
            a.attached < b.attached || (a.attached == b.attached && (
              a.wait < b.wait || (a.wait == b.wait && a.rancher < b.rancher)))))))))))
  }

  // ---- what cooperative events do to the measure's parts ----

  /** Later in time with the same object; whatever changed went forward. */
  ghost predicate Drift(c: Cluster, d: Cluster) {
    var since := c.cr.deletedAt;
    && d.cr == c.cr && d.now >= c.now
    && (d.backups == c.backups
        || Rank(d.backups, since) < Rank(c.backups, since)
        || (Rank(d.backups, since) == Rank(c.backups, since) && Work(d.backups) < Work(c.backups)))
    && (NoFailure(c.backups, since) ==> NoFailure(d.backups, since))
    && (Standing(d.ns) < Standing(c.ns)
        || (Standing(d.ns) == Standing(c.ns) && (d.ns.Terminating? ==> d.ns.since == c.ns.since)))
    && (d.rancher == c.rancher || Attached(d.rancher) < Attached(c.rancher))
  }

  lemma DriftTwice(a: Cluster, b: Cluster, c: Cluster)
    requires Drift(a, b) && Drift(b, c)
    ensures Drift(a, c)
  {
    hide Rank, Work, NoFailure, Attached;
  }

  lemma {:induction false} WorkUpdate(backups: seq<Backup>, i: nat, b: Backup)
    requires i < |backups|
    ensures Work(backups[i := b]) == Work(backups) - WorkOf(backups[i]) + WorkOf(b)
  {
    hide WorkOf;
    var n := |backups| - 1;
    if i == n {
      assert backups[i := b][..n] == backups[..n];
    } else {
      assert backups[i := b][..n] == backups[..n][i := b];
      WorkUpdate(backups[..n], i, b);
    }
  }

  /** Starting or completing a backup never takes its deletion further from a net. */
  lemma RankUpdate(backups: seq<Backup>, i: nat, b: Backup, since: int)
    requires i < |backups| && KindOf(backups[i], since) == Running && KindOf(b, since) != Broken
    requires FreshRunning(backups[i], since) ==> FreshRunning(b, since) || KindOf(b, since) == Done
    ensures Rank(backups[i := b], since) <= Rank(backups, since)
    ensures NoFailure(backups, since) ==> NoFailure(backups[i := b], since)
  {
    hide KindOf, FreshRunning;
    var after := backups[i := b];
    assert forall j | 0 <= j < |backups| && j != i :: after[j] == backups[j];
    assert after[i] == b;
    if Exists(backups, Done, since) {
      var j :| 0 <= j < |backups| && KindOf(backups[j], since) == Done;
      assert KindOf(after[j], since) == Done;
    } else if AnyFreshRunning(backups, since) {
      var j :| 0 <= j < |backups| && FreshRunning(backups[j], since);
      assert FreshRunning(after[j], since) || KindOf(after[j], since) == Done;
    }
  }

  lemma BackupEventDrifts(c: Cluster, i: nat, b: Backup)
    requires i < |c.backups| && KindOf(c.backups[i], c.cr.deletedAt) == Running
    requires KindOf(b, c.cr.deletedAt) != Broken && WorkOf(b) < WorkOf(c.backups[i])
    requires FreshRunning(c.backups[i], c.cr.deletedAt) ==> FreshRunning(b, c.cr.deletedAt) || KindOf(b, c.cr.deletedAt) == Done
    ensures Drift(c, c.(backups := c.backups[i := b]))
  {
    RankUpdate(c.backups, i, b, c.cr.deletedAt);
    WorkUpdate(c.backups, i, b);
    hide Rank, Work, WorkOf, KindOf, NoFailure, FreshRunning;
  }

  lemma Phases()
    ensures !IsTerminalBackupPhase("InProgress") && !IsTerminalBackupPhase("") && IsTerminalBackupPhase("Completed")
  {
  }

  lemma EventDrifts(c: Cluster, e: Event)
    requires Cooperative(e) && c.now >= c.cr.deletedAt > 0
    ensures Drift(c, Happen(c, e))
  {
    Phases();
    hide Rank, Work, NoFailure, IsTerminalBackupPhase;
    match e
    case VeleroStarts(i) =>
      if i < |c.backups| && !IsTerminalBackupPhase(c.backups[i].phase) && c.backups[i].started == 0 {
        BackupEventDrifts(c, i, c.backups[i].(phase := "InProgress", started := c.now));
      }
    case VeleroFinishes(i, phase) =>
      if i < |c.backups| && !IsTerminalBackupPhase(c.backups[i].phase) {
        BackupEventDrifts(c, i, c.backups[i].(phase := phase, completed := c.now));
      }
    case _ =>
  }

  lemma {:induction false} EventsDrift(c: Cluster, es: seq<Event>)
    requires (forall e | e in es :: Cooperative(e)) && c.now >= c.cr.deletedAt > 0
    ensures Drift(c, HappenAll(c, es))
  {
    hide Happen, Cooperative, Rank, Work, NoFailure, Standing, Attached;
    if es == [] {
    } else {
      EventsDrift(c, es[..|es| - 1]);
      var d := HappenAll(c, es[..|es| - 1]);
      EventDrifts(d, es[|es| - 1]);
      DriftTwice(c, d, Happen(d, es[|es| - 1]));
    }
  }

  // ---- what each step leaves ----

  predicate SameCond(a: Status, b: Status, kind: CondType) {
    Find(a.conditions, kind) == Find(b.conditions, kind)
  }

  lemma TurnDrifts(c: Cluster, t: Turn)
    requires Helpful(t) && c.now >= c.cr.deletedAt > 0
    ensures Drift(c, At(c, t))
  {
    EventsDrift(c, t.before);
  }

  /** Rancher's part of the measure went down. */
  ghost predicate RancherProgress(c: Cluster, g: Go) {
    || Attached(g.c.rancher) < Attached(c.rancher)
    || (g.c.rancher == c.rancher
        && RancherWait(g.c.rancher, g.st, c.cr.deletedAt, g.c.now) < RancherWait(c.rancher, c.cr.status, c.cr.deletedAt, c.now))
  }

  lemma UnpairWaits(c: Cluster, m: Cluster, st: Status, p: Pass, g: Go)
    requires c.now >= c.cr.deletedAt > 0 && Drift(c, m) && m.now > c.now && Helpful(p.unpair)
    requires SameCond(st, c.cr.status, RancherPaired) && Unresolved(m.rancher)
    requires !Overdue(st.conditions, RancherPaired, ConditionTrue, RANCHER_GIVE_UP_AFTER, m.now)
    requires g.c == Unpair(m, p.unpair).0
    requires g.st == WithCond(AtStage(st, RancherUnpairing), RancherPaired, ConditionTrue, Unpairing, g.c.now)
    ensures Drift(c, g.c) && g.c.now > c.now && RancherProgress(c, g)
  {
    UnpairDrifts(c, m, p.unpair);
    hide HappenAll, Rank, Work, NoFailure, Set, Find, Standing, Helpful, Unpair;
  }

  lemma CleanupWaits(c: Cluster, m: Cluster, st: Status, g: Go)
    requires Drift(c, m) && m.now > c.now && CleanupRuns(m.rancher)
    requires m.now - Anchor(m.rancher.cleanup.startedAt, c.cr.deletedAt) <= RANCHER_GIVE_UP_AFTER
    requires g.c == m
    ensures RancherProgress(c, g)
  {
    hide HappenAll, Rank, Work, NoFailure, Set, Find, Standing;
  }

  lemma RancherStepIs(c: Cluster, b: Cluster, st: Status, p: Pass)
    requires Helpful(p.rancher) && Helpful(p.unpair)
    ensures var g := RancherStep(b, c.cr, st, p);
            var m := At(b, p.rancher);
            && SameCond(g.st, st, BackupCompleted)
            && (g.v == Continue ==> g.c == m)
            && (g.v == Continue || g.v == Wait(STEP_REQUEUE))
            && (g.v != Continue ==>
                  if Unresolved(m.rancher) then
                    && !Overdue(st.conditions, RancherPaired, ConditionTrue, RANCHER_GIVE_UP_AFTER, m.now)
                    && g.c == Unpair(m, p.unpair).0
                    && g.st == WithCond(AtStage(st, RancherUnpairing), RancherPaired, ConditionTrue, Unpairing, g.c.now)
                  else
                    && CleanupRuns(m.rancher) && g.c == m
                    && m.now - Anchor(m.rancher.cleanup.startedAt, c.cr.deletedAt) <= RANCHER_GIVE_UP_AFTER)
  {
    Fate(p.rancher);
    Fate(p.unpair);
    hide HappenAll, Set, Find, Helpful, Overdue;
  }

  lemma RancherStepProgress(c: Cluster, b: Cluster, st: Status, p: Pass)
    requires c.now >= c.cr.deletedAt > 0 && Drift(c, b) && b.now > c.now && Helpful(p.rancher) && Helpful(p.unpair)
    requires SameCond(st, c.cr.status, RancherPaired)
    ensures var g := RancherStep(b, c.cr, st, p);
            && Drift(c, g.c) && g.c.now > c.now && SameCond(g.st, st, BackupCompleted)
            && (g.v == Continue || (g.v == Wait(STEP_REQUEUE) && RancherProgress(c, g)))
  {
    RancherStepIs(c, b, st, p);
    TurnDrifts(b, p.rancher);
    var m := At(b, p.rancher);
    DriftTwice(c, b, m);
    DriftFacts(b, m);
    var g := RancherStep(b, c.cr, st, p);
    hide *;
    if g.v != Continue {
      if Unresolved(m.rancher) {
        UnpairWaits(c, m, st, p, g);
      } else {
        CleanupWaits(c, m, st, g);
      }
    }
  }

  lemma UnpairDrifts(c: Cluster, b: Cluster, t: Turn)
    requires c.now >= c.cr.deletedAt > 0 && Drift(c, b) && Helpful(t)
    ensures var (d, ok) := Unpair(b, t);
            ok && Drift(c, d) && Drift(b, d) && d.now >= b.now
  {
    hide HappenAll, Rank, Work, NoFailure, Standing, Attached;
    TurnDrifts(b, t);
    DriftTwice(c, b, At(b, t));
  }

  lemma Fate(t: Turn)
    requires Helpful(t)
    ensures t.fate == Served
  {
  }

  /** What brings the next pass: a delay asked for, an error, or a status that changes. */
  predicate Wakes(c: Cluster, g: Go) {
    g.v == Wait(0) ==> Launched(c.cr.status) && !Launched(g.st)
  }

  /** The backup's part of the measure went down. */
  ghost predicate BackupProgress(c: Cluster, g: Go) {
    var since := c.cr.deletedAt;
    && !OverrideDisarms(c.cr.override)
    && ((Drift(c, g.c) && Work(g.c.backups) > 0 && c.now < Deadline(g.c.backups, since) && Launched(g.st))
        || (Drift(c, g.c) && Work(g.c.backups) == 0 && Rank(g.c.backups, since) == 2
            && Launched(g.st) && SameCond(g.st, c.cr.status, BackupCompleted)
            && c.now < BackupSince(g.st) + BACKUP_GIVE_UP_AFTER + 1)
        || (Drift(c, g.c) && Work(g.c.backups) == 0 && Rank(g.c.backups, since) == 2
            && !Launched(g.st) && Launched(c.cr.status))
        || (g.c.cr == c.cr && g.c.now >= c.now && NoFailure(g.c.backups, since)
            && Rank(g.c.backups, since) < Rank(c.backups, since)))
  }

  lemma {:induction false} NoWork(backups: seq<Backup>, since: int)
    ensures Work(backups) > 0 <==> Exists(backups, Running, since)
  {
    if backups == [] {
    } else {
      NoWork(backups[..|backups| - 1], since);
      ExistsOneMore(backups, Running, since);
      hide Exists;
    }
  }

  lemma {:induction false} PunctualDeadline(backups: seq<Backup>, deletedAt: int, now: int)
    requires Punctual(backups, deletedAt, now) && Work(backups) > 0
    ensures now <= Deadline(backups, deletedAt)
  {
    var n := |backups| - 1;
    if IsTerminalBackupPhase(backups[n].phase) {
      hide IsTerminalBackupPhase;
      assert forall i | 0 <= i < n :: backups[..n][i] == backups[i];
      PunctualDeadline(backups[..n], deletedAt, now);
    }
  }

  /** In a world without failed backups, what the selection reports. */
  lemma PickTells(backups: seq<Backup>, since: int, now: int)
    requires NoFailure(backups, since) && Punctual(backups, since, now)
    ensures var r := Pick(backups, since);
            && !r.failed
            && (r.completed ==> Rank(backups, since) == 0 && Work(backups) == 0)
            && (r.found && !r.completed ==> Work(backups) > 0 && now - Anchor(r.startedAt, since) <= BACKUP_GIVE_UP_AFTER)
            && (!r.found ==> Rank(backups, since) == 2 && Work(backups) == 0)
  {
    PickIsTheRule(backups, since);
    NoWork(backups, since);
    if AnyFreshRunning(backups, since) {
      var i :| 0 <= i < |backups| && FreshRunning(backups[i], since);
      assert KindOf(backups[i], since) == Running;
    }
    hide Work, Latest;
  }

  lemma TriggeredRank(backups: seq<Backup>, name: string, since: int)
    requires NoFailure(backups, since)
    ensures var after := backups + [Backup(name, "", 0, 0)];
            Rank(after, since) <= 1 && NoFailure(after, since)
  {
    Phases();
    hide IsTerminalBackupPhase;
    var b := Backup(name, "", 0, 0);
    var after := backups + [b];
    assert after[|backups|] == b && FreshRunning(b, since) && KindOf(b, since) == Running;
    assert forall i | 0 <= i < |backups| :: after[i] == backups[i];
  }

  /** Going on to the last step: covered, disarmed, or nothing there. */
  ghost predicate Cleared(c: Cluster) {
    OverrideDisarms(c.cr.override) || c.ns.Absent? || (Rank(c.backups, c.cr.deletedAt) == 0 && Work(c.backups) == 0)
  }

  lemma ClearedStays(c: Cluster, d: Cluster)
    requires Cleared(c) && Drift(c, d)
    ensures Cleared(d)
  {
    hide Rank, Work, NoFailure, OverrideDisarms;
  }

  lemma TriggerProgress(c: Cluster, m: Cluster, st: Status, p: Pass)
    requires c.now >= c.cr.deletedAt > 0 && Drift(c, m) && m.now > c.now && Helpful(p.trigger)
    requires NoFailure(c.backups, c.cr.deletedAt) && Rank(m.backups, c.cr.deletedAt) == 2
    ensures var d := TriggerBackup(m, p.trigger, p.backupName).0;
            && d.cr == c.cr && d.now > c.now && NoFailure(d.backups, c.cr.deletedAt)
            && Rank(d.backups, c.cr.deletedAt) < Rank(c.backups, c.cr.deletedAt)
  {
    hide HappenAll, Rank, Work, Standing, Attached, NoFailure;
    RankBound(c.backups, c.cr.deletedAt);
    TurnDrifts(m, p.trigger);
    var d := At(m, p.trigger);
    DriftTwice(c, m, d);
    TriggeredRank(d.backups, p.backupName, c.cr.deletedAt);
  }

  /** The backup step's decision, for a selection that is neither failed nor too old. */
  lemma JudgedIs(m: Cluster, cr: CR, st: Status, seen: DeletionBackup, p: Pass)
    requires Helpful(p.trigger) && ProgressIsUnknown(st)
    requires !seen.failed && (seen.found && !seen.completed ==> m.now - Anchor(seen.startedAt, cr.deletedAt) <= BACKUP_GIVE_UP_AFTER)
    ensures var g := Judged(m, cr, st, seen, Launched(st), p);
            && ProgressIsUnknown(g.st)
            && (g.v == Continue <==> seen.completed)
            && (g.v == Continue || g.v.Wait?)
            && (g.v == Wait(0) ==> Launched(st) && !Launched(g.st))
            && (seen.completed || seen.found || Launched(st) ==> g.c == m)
            && (seen.found && !seen.completed ==> Launched(g.st))
            && (!seen.found && !seen.completed && Launched(st) ==>
                  if Launched(g.st) then g.st == st && m.now <= BackupSince(st) + BACKUP_GIVE_UP_AFTER
                  else true)
            && (!seen.found && !seen.completed && !Launched(st) ==> g.c == TriggerBackup(m, p.trigger, p.backupName).0)
  {
    Fate(p.trigger);
    hide TriggerBackup, Set, Find;
  }

  lemma JudgedProgress(c: Cluster, m: Cluster, st: Status, p: Pass)
    requires c.now >= c.cr.deletedAt > 0 && Drift(c, m) && m.now > c.now && Helpful(p.trigger)
    requires NoFailure(c.backups, c.cr.deletedAt) && Punctual(m.backups, c.cr.deletedAt, m.now)
    requires SameCond(st, c.cr.status, BackupCompleted) && ProgressIsUnknown(st) && !OverrideDisarms(c.cr.override)
    ensures var since := c.cr.deletedAt;
            var g := Judged(m, c.cr, st, Pick(m.backups, since), Launched(st), p);
            && ProgressIsUnknown(g.st) && g.c.now > c.now && g.c.cr == c.cr && NoFailure(g.c.backups, since)
            && (g.v == Continue ==> g.c == m && Cleared(g.c))
            && (g.v == Continue || (g.v.Wait? && BackupProgress(c, g) && Wakes(c, g)))
  {
    var since := c.cr.deletedAt;
    var seen := Pick(m.backups, since);
    DriftFacts(c, m);
    PickTells(m.backups, since, m.now);
    JudgedIs(m, c.cr, st, seen, p);
    hide Judged, TriggerBackup, Rank, Work, Deadline, Pick, Find, OverrideDisarms, NoFailure, Drift, Helpful, Punctual;
    if seen.found {
      if !seen.completed {
        PunctualDeadline(m.backups, since, m.now);
      }
    } else if !Launched(st) {
      TriggerProgress(c, m, st, p);
    }
  }

  lemma RankBound(backups: seq<Backup>, since: int)
    ensures Rank(backups, since) <= 2
  {
  }

  lemma InspectDrifts(c: Cluster, b: Cluster, p: Pass)
    requires c.now >= c.cr.deletedAt > 0 && Drift(c, b) && b.now > c.now && Helpful(p.inspect)
    ensures var (m, seen) := InspectBackups(b, p.inspect, c.cr.deletedAt);
            && Drift(c, m) && m.now > c.now && m.backups == At(b, p.inspect).backups && m.now == At(b, p.inspect).now
            && seen == Some(Pick(m.backups, c.cr.deletedAt))
  {
    hide HappenAll, Rank, Work, NoFailure, Pick, Standing, Attached;
    TurnDrifts(b, p.inspect);
    DriftTwice(c, b, At(b, p.inspect));
  }

  lemma LookDrifts(c: Cluster, b: Cluster, t: Turn)
    requires c.now >= c.cr.deletedAt > 0 && Drift(c, b) && b.now > c.now && Helpful(t)
    ensures var (d, look) := LookAtNamespace(b, t);
            Drift(c, d) && d.now > c.now && d.now >= b.now && look == LookOf(d.ns)
  {
    hide HappenAll, Rank, Work, NoFailure, Standing, Attached;
    TurnDrifts(b, t);
    DriftTwice(c, b, At(b, t));
  }

  lemma BackupStepIs(c: Cluster, b: Cluster, st: Status, p: Pass)
    requires Helpful(p.firstLook) && Helpful(p.inspect)
    ensures var g := BackupStep(b, c.cr, st, p);
            var (d, look) := LookAtNamespace(b, p.firstLook);
            var (m, seen) := InspectBackups(d, p.inspect, c.cr.deletedAt);
            if look == SawAbsent || OverrideDisarms(c.cr.override) then
              g.v == Continue && g.c == d && ProgressIsUnknown(g.st)
            else
              seen.Some? && g == Judged(m, c.cr, AtStage(st, BackupPending), seen.value, Launched(st), p)
  {
    Fate(p.firstLook);
    Fate(p.inspect);
    hide HappenAll, Pick, Set, Find, OverrideDisarms, Judged, Helpful;
  }

  lemma BackupStepProgress(c: Cluster, b: Cluster, st: Status, p: Pass)
    requires c.now >= c.cr.deletedAt > 0 && Drift(c, b) && b.now > c.now && NoFailure(c.backups, c.cr.deletedAt)
    requires Helpful(p.firstLook) && Helpful(p.inspect) && Helpful(p.trigger)
    requires var m := At(LookAtNamespace(b, p.firstLook).0, p.inspect); Punctual(m.backups, c.cr.deletedAt, m.now)
    requires SameCond(st, c.cr.status, BackupCompleted) && ProgressIsUnknown(c.cr.status)
    ensures var g := BackupStep(b, c.cr, st, p);
            && ProgressIsUnknown(g.st) && g.c.now > c.now && g.c.cr == c.cr && NoFailure(g.c.backups, c.cr.deletedAt)
            && (g.v == Continue ==> Drift(c, g.c) && Cleared(g.c))
            && (g.v == Continue || (g.v.Wait? && BackupProgress(c, g) && Wakes(c, g)))
  {
    BackupStepIs(c, b, st, p);
    LookDrifts(c, b, p.firstLook);
    hide HappenAll, Rank, Work, NoFailure, Punctual, Pick, Set, Find, OverrideDisarms, Judged, Helpful, BackupProgress,
         Drift, LookAtNamespace, InspectBackups, BackupStep;
    var c1 := LookAtNamespace(b, p.firstLook).0;
    DriftFacts(c, c1);
    if !c1.ns.Absent? && !OverrideDisarms(c.cr.override) {
      InspectDrifts(c, c1, p);
      var m := InspectBackups(c1, p.inspect, c.cr.deletedAt).0;
      JudgedProgress(c, m, AtStage(st, BackupPending), p);
    }
  }

  /** The namespace's part of the measure went down. */
  ghost predicate RemovalProgress(c: Cluster, g: Go) {
    && Drift(c, g.c)
    && (Standing(g.c.ns) < Standing(c.ns)
        || (Cleared(g.c) && g.c.ns.Terminating? && c.now < g.c.ns.since + NAMESPACE_GIVE_UP_AFTER + 1))
  }

  lemma DeleteProgress(c: Cluster, b: Cluster, p: Pass)
    requires c.now >= c.cr.deletedAt > 0 && Drift(c, b) && b.ns.Live? && Helpful(p.delete)
    ensures var (d, ok) := DeleteNamespace(b, p.delete);
            ok && Drift(c, d) && d.now >= b.now && Standing(d.ns) < Standing(c.ns)
  {
    hide HappenAll, Rank, Work, NoFailure, Attached;
    TurnDrifts(b, p.delete);
    var d := At(b, p.delete);
    DriftTwice(c, b, d);
  }

  lemma RemovalStepProgress(c: Cluster, b: Cluster, st: Status, p: Pass)
    requires c.now >= c.cr.deletedAt > 0 && Drift(c, b) && b.now > c.now && Cleared(b)
    requires Helpful(p.look) && Helpful(p.delete) && Helpful(p.lookAgain)
    ensures var g := RemovalStep(b, st, p);
            && Drift(c, g.c) && g.c.now > c.now && SameCond(g.st, st, BackupCompleted)
            && (g.v == Continue || (g.v == Wait(STEP_REQUEUE) && RemovalProgress(c, g)))
  {
    hide HappenAll, Rank, Work, NoFailure, Set, Find, Attached, OverrideDisarms, Helpful, Cleared;
    Fate(p.look);
    Fate(p.delete);
    Fate(p.lookAgain);
    TurnDrifts(b, p.look);
    var c1 := LookAtNamespace(b, p.look).0;
    DriftTwice(c, b, c1);
    ClearedStays(b, c1);
    if c1.ns.Live? {
      DeleteProgress(c, c1, p);
      hide DeleteNamespace;
      var c2 := DeleteNamespace(c1, p.delete).0;
      TurnDrifts(c2, p.lookAgain);
      var c3 := LookAtNamespace(c2, p.lookAgain).0;
      DriftTwice(c, c2, c3);
    }
  }

  lemma FinalStepProgress(c: Cluster, b: Cluster, st: Status, p: Pass)
    requires c.now >= c.cr.deletedAt > 0 && Drift(c, b) && b.now > c.now && Cleared(b)
    requires Helpful(p.protection) && Helpful(p.lift) && Helpful(p.teardown)
    requires Helpful(p.look) && Helpful(p.delete) && Helpful(p.lookAgain)
    ensures var g := FinalStep(b, st, p);
            && Drift(c, g.c) && g.c.now > c.now && SameCond(g.st, st, BackupCompleted)
            && (g.v == Continue || ((g.v == Wait(STEP_REQUEUE) || g.v == Error) && RemovalProgress(c, g)))
  {
    hide HappenAll, Rank, Work, NoFailure, Set, Find, Attached, OverrideDisarms, Helpful, Cleared, RemovalStep, RemovalProgress;
    Fate(p.protection);
    Fate(p.lift);
    Fate(p.teardown);
    TurnDrifts(b, p.protection);
    var c1 := GetProtection(b, p.protection).0;
    DriftTwice(c, b, c1);
    ClearedStays(b, c1);
    TurnDrifts(c1, p.lift);
    var c2 := LiftProtection(c1, p.lift).0;
    assert Drift(c1, c2);
    DriftTwice(c, c1, c2);
    ClearedStays(c1, c2);
    var s := AtStage(AtStage(st, ProtectionRemoval).(protectionEnabled := false), Destroying);
    if !c1.ns.Absent? && c1.ns.protected {
      if !At(c1, p.lift).ns.Absent? {
        TornDown(c, c2, p);
        RemovalStepProgress(c, Teardown(c2, p.teardown).0, s, p);
      } else {
        VanishedIsProgress(c, c1, FinalStep(b, st, p));
      }
    } else {
      TornDown(c, c1, p);
      RemovalStepProgress(c, Teardown(c1, p.teardown).0, s, p);
    }
  }

  lemma VanishedIsProgress(c: Cluster, b: Cluster, g: Go)
    requires Drift(c, b) && !b.ns.Absent? && Drift(c, g.c) && g.c.ns.Absent?
    ensures RemovalProgress(c, g)
  {
    hide Rank, Work, NoFailure, Attached;
  }

  lemma TornDown(c: Cluster, b: Cluster, p: Pass)
    requires c.now >= c.cr.deletedAt > 0 && Drift(c, b) && b.now > c.now && Cleared(b) && Helpful(p.teardown)
    ensures var d := Teardown(b, p.teardown).0; Drift(c, d) && d.now > c.now && Cleared(d)
  {
    TurnDrifts(b, p.teardown);
    var a, d := At(b, p.teardown), Teardown(b, p.teardown).0;
    DriftTwice(c, b, a);
    ClearedStays(b, a);
    hide HappenAll, Rank, Work, NoFailure, Attached, OverrideDisarms, Helpful;
    assert d.now == a.now && d.ns == a.ns && d.backups == a.backups && d.rancher == a.rancher && d.cr == a.cr;
  }

  // ---- the measure goes down ----

  function Storing(d: Cluster, st: Status, version: nat): Cluster {
    d.(cr := d.cr.(status := st, version := version))
  }

  lemma LessByRancher(c: Cluster, g: Go, d: Cluster, version: nat)
    requires Drift(c, g.c) && Drift(g.c, d) && g.c.now > c.now && RancherProgress(c, g)
    requires SameCond(g.st, c.cr.status, BackupCompleted)
    ensures Less(MeasureOf(Storing(d, g.st, version)), MeasureOf(c))
  {
    hide Rank, Work, NoFailure, OverrideDisarms, Find, Deadline;
    DriftTwice(c, g.c, d);
  }

  lemma LessByBackup(c: Cluster, g: Go, d: Cluster, version: nat)
    requires Drift(g.c, d) && g.c.now > c.now && BackupProgress(c, g)
    ensures Less(MeasureOf(Storing(d, g.st, version)), MeasureOf(c))
  {
    hide Rank, Work, NoFailure, OverrideDisarms, Find, Deadline, RancherWait;
    if Drift(c, g.c) {
      DriftTwice(c, g.c, d);
    }
  }

  lemma LessByRemoval(c: Cluster, g: Go, d: Cluster, version: nat)
    requires Drift(g.c, d) && g.c.now > c.now && RemovalProgress(c, g)
    ensures Less(MeasureOf(Storing(d, g.st, version)), MeasureOf(c))
  {
    hide Rank, Work, NoFailure, OverrideDisarms, Find, Deadline, RancherWait;
    DriftTwice(c, g.c, d);
  }

  // ---- the pass ----

  lemma BegunDrifts(c: Cluster, p: Pass)
    requires Deletable(c) && CooperativePass(c, p)
    ensures Drift(c, Begun(c, p)) && Begun(c, p).now > c.now
    ensures Copy(HappenAll(c, p.idle), p) == c.cr
    ensures Reconcile(c, p) == Closing(RunSteps(STEPS, Begun(c, p), c.cr, Opening(c.cr.status), p), c.cr.version, p)
  {
    hide HappenAll, Rank, Work, NoFailure, Standing, Attached, OverrideDisarms, RunSteps, Closing, Inspected, Punctual, Helpful;
    EventsDrift(c, p.idle);
  }

  lemma DriftFacts(c: Cluster, d: Cluster)
    requires Drift(c, d)
    ensures d.cr == c.cr && d.now >= c.now
    ensures NoFailure(c.backups, c.cr.deletedAt) ==> NoFailure(d.backups, c.cr.deletedAt)
  {
  }

  lemma LogIsNotMeasured(c: Cluster, e: Entry)
    ensures MeasureOf(Logged(c, e)) == MeasureOf(c)
  {
    hide Rank, Work, OverrideDisarms, Find, Deadline;
  }

  /** How the end of a pass leaves a world where writes land. */
  lemma Landing(c: Cluster, g: Go, p: Pass)
    requires Deletable(c) && g.c.cr == c.cr && g.c.now >= c.now && g.v != Dead && Helpful(p.store) && Helpful(p.release)
    requires NoFailure(g.c.backups, c.cr.deletedAt) && ProgressIsUnknown(g.st)
    ensures var (c', v) := Closing(g, c.cr.version, p);
            && v == g.v && (v != Continue ==> c'.cr.status == g.st)
            && Drift(g.c, At(g.c, p.store))
            && (v == Continue ==> !c'.cr.finalizer)
            && (v != Continue ==> Deletable(c')
                                  && MeasureOf(c') == MeasureOf(Storing(At(g.c, p.store), g.st, c.cr.version + 1)))
  {
    Fate(p.store);
    Fate(p.release);
    hide HappenAll, Rank, Work, NoFailure, Standing, Attached, Find, Helpful, Concludes, MeasureOf, ProgressIsUnknown;
    TurnDrifts(g.c, p.store);
    var d := At(g.c, p.store);
    var c1 := StoreStatus(g.c, p.store, c.cr.version, g.st).0;
    LogIsNotMeasured(Storing(d, g.st, c.cr.version + 1), StoredStatus(Concludes(g.st)));
    assert c1 == Logged(Storing(d, g.st, c.cr.version + 1), StoredStatus(Concludes(g.st)));
    TurnDrifts(c1, p.release);
  }

  ghost predicate Lower(c: Cluster, g: Go, p: Pass) {
    Less(MeasureOf(Storing(At(g.c, p.store), g.st, c.cr.version + 1)), MeasureOf(c))
  }

  /** What the sequence leaves, before the status is stored. */
  ghost predicate Stepped(c: Cluster, g: Go, p: Pass) {
    && g.v != Dead && g.c.cr == c.cr && g.c.now > c.now
    && NoFailure(g.c.backups, c.cr.deletedAt) && ProgressIsUnknown(g.st)
    && (g.v != Continue ==> Lower(c, g, p) && Wakes(c, g))
  }

  /** The end of a sequence whose first two steps went on. */
  function FromBackup(c: Cluster, g2: Go, p: Pass): Go {
    var g3 := BackupStep(g2.c, c.cr, g2.st, p);
    if g3.v == Continue then FinalStep(g3.c, g3.st, p) else g3
  }

  lemma FromBackupProgress(c: Cluster, g2: Go, p: Pass)
    requires Deletable(c) && CooperativePass(c, p) && g2 == AfterRancher(c, p)
    requires Drift(c, g2.c) && g2.c.now > c.now && SameCond(g2.st, c.cr.status, BackupCompleted)
    ensures Stepped(c, FromBackup(c, g2, p), p)
  {
    hide HappenAll, Rank, Work, NoFailure, Punctual, OverrideDisarms, Find, Set, MeasureOf, Less, RancherStep, BackupStep,
         FinalStep, BackupProgress, RemovalProgress, Cleared, LookAtNamespace, Cooperative, Begun, AfterRancher, Helpful, Drift,
         ProgressIsUnknown;
    BackupStepProgress(c, g2.c, g2.st, p);
    var g3 := BackupStep(g2.c, c.cr, g2.st, p);
    if g3.v != Continue {
      TurnDrifts(g3.c, p.store);
      LessByBackup(c, g3, At(g3.c, p.store), c.cr.version + 1);
    } else {
      FinalStepProgress(c, g3.c, g3.st, p);
      var g := FinalStep(g3.c, g3.st, p);
      DriftFacts(c, g.c);
      SameProgress(g.st, g3.st);
      if g.v != Continue {
        TurnDrifts(g.c, p.store);
        LessByRemoval(c, g, At(g.c, p.store), c.cr.version + 1);
      }
    }
  }

  lemma SameProgress(a: Status, b: Status)
    requires SameCond(a, b, BackupCompleted) && ProgressIsUnknown(b)
    ensures ProgressIsUnknown(a)
  {
  }

  lemma SequenceIs(c: Cluster, p: Pass)
    requires HappenAll(c, p.idle).cr == c.cr && !c.cr.spec.deletionProtection
    ensures RunSteps(STEPS, Begun(c, p), c.cr, Opening(c.cr.status), p) ==
            if AfterRancher(c, p).v == Continue then FromBackup(c, AfterRancher(c, p), p) else AfterRancher(c, p)
  {
    hide HappenAll, RancherStep, BackupStep, FinalStep, RunSteps, OverrideDisarms, Set, Find;
    DeletionSafety.Unroll(Begun(c, p), c.cr, Opening(c.cr.status), p);
  }

  lemma WaitedForRancher(c: Cluster, p: Pass, g: Go)
    requires Deletable(c) && Helpful(p.store)
    requires Drift(c, g.c) && g.c.now > c.now && SameCond(g.st, c.cr.status, BackupCompleted)
    requires g.v == Wait(STEP_REQUEUE) && RancherProgress(c, g)
    ensures Stepped(c, g, p)
  {
    hide HappenAll, Rank, Work, NoFailure, Find, MeasureOf, Less, RancherProgress, Helpful, Drift, ProgressIsUnknown;
    DriftFacts(c, g.c);
    SameProgress(g.st, c.cr.status);
    TurnDrifts(g.c, p.store);
    LessByRancher(c, g, At(g.c, p.store), c.cr.version + 1);
  }

  lemma SequenceProgress(c: Cluster, p: Pass)
    requires Deletable(c) && CooperativePass(c, p)
    ensures Stepped(c, RunSteps(STEPS, Begun(c, p), c.cr, Opening(c.cr.status), p), p)
  {
    IdleDrifts(c, p);
    SequenceIs(c, p);
    UnpairingProgress(c, p);
    hide HappenAll, RunSteps, RancherProgress, Begun, AfterRancher, Inspected, Helpful, Drift, FromBackup, Stepped, Deletable,
         Find, Punctual, Cooperative;
    var g2 := AfterRancher(c, p);
    if g2.v != Continue {
      WaitedForRancher(c, p, g2);
    } else {
      FromBackupProgress(c, g2, p);
    }
  }

  lemma IdleDrifts(c: Cluster, p: Pass)
    requires Deletable(c) && CooperativePass(c, p)
    ensures HappenAll(c, p.idle).cr == c.cr && !c.cr.spec.deletionProtection
  {
    hide HappenAll, Rank, Work, NoFailure, Standing, Attached, Inspected, Punctual, Helpful;
    EventsDrift(c, p.idle);
  }

  lemma UnpairingProgress(c: Cluster, p: Pass)
    requires Deletable(c) && CooperativePass(c, p)
    ensures var g := AfterRancher(c, p);
            && Drift(c, g.c) && g.c.now > c.now && SameCond(g.st, c.cr.status, BackupCompleted)
            && (g.v == Continue || (g.v == Wait(STEP_REQUEUE) && RancherProgress(c, g)))
  {
    BegunDrifts(c, p);
    var b := Begun(c, p);
    hide HappenAll, Rank, Work, NoFailure, Punctual, OverrideDisarms, Find, Set, RancherStep, RancherProgress, Cooperative,
         Begun, Inspected, Helpful;
    DriftFacts(c, b);
    var g1 := ProtectionStep(b, c.cr, Opening(c.cr.status));
    RancherStepProgress(c, b, g1.st, p);
  }

  lemma LandingLower(c: Cluster, g: Go, p: Pass)
    requires Deletable(c) && CooperativePass(c, p) && Stepped(c, g, p)
    ensures var (c', v) := Closing(g, c.cr.version, p);
            if v == Continue then !c'.cr.finalizer
            else Deletable(c') && Less(MeasureOf(c'), MeasureOf(c)) && v != Dead
                 && (v == Wait(0) ==> c'.cr.status != c.cr.status)
  {
    hide HappenAll, MeasureOf, Less, Inspected, Helpful, Drift, Closing, Deletable, Punctual, ProgressIsUnknown, NoFailure,
         Storing;
    Landing(c, g, p);
  }

  /** In a cooperative pass, either the object is let go, or the measure has gone down and
      another pass is due: after a delay, to retry an error, or because the stored status
      changed, which the operator watches. */
  lemma PassProgress(c: Cluster, p: Pass)
    requires Deletable(c) && CooperativePass(c, p)
    ensures var (c', v) := Reconcile(c, p);
            if v == Continue then !c'.cr.finalizer
            else Deletable(c') && Less(MeasureOf(c'), MeasureOf(c)) && v != Dead
                 && (v == Wait(0) ==> c'.cr.status != c.cr.status)
  {
    BegunDrifts(c, p);
    SequenceProgress(c, p);
    var g := RunSteps(STEPS, Begun(c, p), c.cr, Opening(c.cr.status), p);
    hide *;
    LandingLower(c, g, p);
  }

  // ---- whole runs ----

  /** The world after `n` passes of a schedule. */
  function After(c: Cluster, schedule: nat -> Pass, n: nat): Cluster {
    if n == 0 then c else Reconcile(After(c, schedule, n - 1), schedule(n - 1)).0
  }

  /** Another pass is due, or the object is gone: the controller requeues after a delay or an
      error, and watches the object for a status that changes. */
  predicate Due(c: Cluster, p: Pass) {
    var (c', v) := Reconcile(c, p);
    v == Continue || v == Error || (v.Wait? && v.requeue > 0) || c'.cr.status != c.cr.status
  }

  /** Every pass from `k` to `n` brings the next one about. */
  ghost predicate AllDue(c: Cluster, schedule: nat -> Pass, k: nat, n: nat) {
    forall i: nat | k <= i < n :: Due(After(c, schedule, i), schedule(i))
  }

  lemma NothingDue(c: Cluster, schedule: nat -> Pass, n: nat)
    ensures AllDue(c, schedule, n, n)
  {
  }

  lemma OneMoreDue(c: Cluster, schedule: nat -> Pass, k: nat, n: nat)
    requires Due(After(c, schedule, k), schedule(k)) && AllDue(c, schedule, k + 1, n)
    ensures AllDue(c, schedule, k, n)
  {
    hide Due, After;
  }

  lemma PassIsDue(c: Cluster, p: Pass)
    requires Deletable(c) && CooperativePass(c, p)
    ensures Due(c, p)
  {
    PassProgress(c, p);
    hide Reconcile, MeasureOf, Less, CooperativePass, Deletable;
  }

  lemma {:induction false} EndsFrom(c: Cluster, schedule: nat -> Pass, k: nat) returns (n: nat)
    requires Deletable(After(c, schedule, k))
    requires forall i: nat :: After(c, schedule, i).cr.finalizer ==> CooperativePass(After(c, schedule, i), schedule(i))
    ensures n > k && !After(c, schedule, n).cr.finalizer
    ensures AllDue(c, schedule, k, n)
    decreases MeasureOf(After(c, schedule, k)).rank, MeasureOf(After(c, schedule, k)).work,
              MeasureOf(After(c, schedule, k)).standing, MeasureOf(After(c, schedule, k)).hoping,
              MeasureOf(After(c, schedule, k)).attached, MeasureOf(After(c, schedule, k)).wait,
              MeasureOf(After(c, schedule, k)).rancher
  {
    var d := After(c, schedule, k);
    assert d.cr.finalizer;
    PassProgress(d, schedule(k));
    PassIsDue(d, schedule(k));
    hide Reconcile, MeasureOf, CooperativePass, Deletable, Due, AllDue;
    var (d', v) := Reconcile(d, schedule(k));
    assert After(c, schedule, k + 1) == d';
    if v == Continue {
      n := k + 1;
      NothingDue(c, schedule, n);
    } else {
      n := EndsFrom(c, schedule, k + 1);
    }
    OneMoreDue(c, schedule, k, n);
  }

  /** Every endless schedule of cooperative passes lets the object go after finitely many, and
      each pass until then brings the next one about. */
  lemma DeletionEnds(c: Cluster, schedule: nat -> Pass)
    requires Deletable(c)
    requires forall i: nat :: After(c, schedule, i).cr.finalizer ==> CooperativePass(After(c, schedule, i), schedule(i))
    ensures exists n: nat ::
              !After(c, schedule, n).cr.finalizer && AllDue(c, schedule, 0, n)
  {
    var n := EndsFrom(c, schedule, 0);
  }
}
