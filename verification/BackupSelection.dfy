/**
 Which Velero backup covers a deletion: the rule that decides whether destruction
 has a safety net. Times are seconds; 0 is a missing or unreadable timestamp.
 */
module BackupSelection {
  import opened Wrappers

  datatype Backup = Backup(name: string, phase: string, started: int, completed: int)

  datatype DeletionBackup =
    DeletionBackup(found: bool, name: string, phase: string, startedAt: int, completed: bool, failed: bool)

  const NOTHING := DeletionBackup(false, "", "", 0, false, false)

  predicate IsTerminalBackupPhase(phase: string) {
    phase == "Completed" || phase == "Failed" || phase == "PartiallyFailed" || phase == "FailedValidation"
    || phase == "Deleting"
  }

  datatype Kind = Running | Done | Broken | Ignored

  /** When a settled backup counts from. */
  function When(b: Backup): int {
    if b.started != 0 then b.started else b.completed
  }

  /** What a backup is to a deletion asked for at `since`. */
  function KindOf(b: Backup, since: int): Kind {
    if !IsTerminalBackupPhase(b.phase) then Running
    else if When(b) == 0 || When(b) < since then Ignored
    else if b.phase == "Completed" then Done
    else Broken
  }

  function TimeOf(b: Backup): int {
    if IsTerminalBackupPhase(b.phase) then When(b) else b.started
  }

  /** The first of the latest backups of one kind. */
  function Latest(backups: seq<Backup>, kind: Kind, since: int): Option<Backup> {
    if backups == [] then None
    else
      var before := Latest(backups[..|backups| - 1], kind, since);
      var b := backups[|backups| - 1];
      if KindOf(b, since) == kind && (before == None || TimeOf(b) > TimeOf(before.value)) then Some(b) else before
  }

  function Report(b: Backup, kind: Kind): DeletionBackup {
    DeletionBackup(true, b.name, b.phase, TimeOf(b), kind == Done, kind == Broken)
  }

  /** A running backup first, then the latest completed one, then the latest failure. */
  function Pick(backups: seq<Backup>, since: int): DeletionBackup {
    match Latest(backups, Running, since)
    case Some(b) => Report(b, Running)
    case None =>
      match Latest(backups, Done, since)
      case Some(b) => Report(b, Done)
      case None =>
        match Latest(backups, Broken, since)
        case Some(b) => Report(b, Broken)
        case None => NOTHING
  }

  function ReportOf(backups: seq<Backup>, kind: Kind, since: int): Option<DeletionBackup> {
    match Latest(backups, kind, since)
    case Some(b) => Some(Report(b, kind))
    case None => None
  }

  method PickDeletionBackup(backups: seq<Backup>, since: int) returns (r: DeletionBackup)
    ensures r == Pick(backups, since)
  {
    var running: Option<DeletionBackup> := None;
    var completed: Option<DeletionBackup> := None;
    var failed: Option<DeletionBackup> := None;
    for i := 0 to |backups|
      invariant running == ReportOf(backups[..i], Running, since)
      invariant completed == ReportOf(backups[..i], Done, since)
      invariant failed == ReportOf(backups[..i], Broken, since)
    {
      var b := backups[i];
      Extend(backups, i, since);
      var st := DeletionBackup(true, b.name, b.phase, b.started, false, false);
      if !IsTerminalBackupPhase(b.phase) {
        if running == None || b.started > running.value.startedAt {
          running := Some(st);
        }
        continue;
      }
      var when := b.started;
      if when == 0 {
        when := b.completed;
      }
      if when == 0 || when < since {
        continue;
      }
      st := st.(startedAt := when);
      if b.phase == "Completed" {
        st := st.(completed := true);
        if completed == None || when > completed.value.startedAt {
          completed := Some(st);
        }
        continue;
      }
      st := st.(failed := true);
      if failed == None || when > failed.value.startedAt {
        failed := Some(st);
      }
    }
    assert backups[..|backups|] == backups;
    if running.Some? {
      return running.value;
    }
    if completed.Some? {
      return completed.value;
    }
    if failed.Some? {
      return failed.value;
    }
    return NOTHING;
  }

  lemma Extend(backups: seq<Backup>, i: nat, since: int)
    requires i < |backups|
    ensures forall k: Kind ::
              Latest(backups[..i + 1], k, since) ==
              var before, b := Latest(backups[..i], k, since), backups[i];
              if KindOf(b, since) == k && (before == None || TimeOf(b) > TimeOf(before.value)) then Some(b) else before
  {
    assert backups[..i + 1][..i] == backups[..i];
  }

  // ---- the rule, stated without the loop ----

  /** Number `i` is of kind `kind`, none of that kind is later, and it comes before
      every other one as late. */
  ghost predicate LatestAt(i: int, backups: seq<Backup>, kind: Kind, since: int) {
    && 0 <= i < |backups|
    && KindOf(backups[i], since) == kind
    && (forall j | 0 <= j < |backups| && KindOf(backups[j], since) == kind :: TimeOf(backups[j]) <= TimeOf(backups[i]))
    && (forall j | 0 <= j < i && KindOf(backups[j], since) == kind :: TimeOf(backups[j]) < TimeOf(backups[i]))
  }

  ghost predicate IsLatest(b: Backup, backups: seq<Backup>, kind: Kind, since: int) {
    exists i :: LatestAt(i, backups, kind, since) && backups[i] == b
  }

  ghost predicate Exists(backups: seq<Backup>, kind: Kind, since: int) {
    exists i | 0 <= i < |backups| :: KindOf(backups[i], since) == kind
  }

  lemma ExistsOneMore(backups: seq<Backup>, kind: Kind, since: int)
    requires backups != []
    ensures Exists(backups, kind, since) <==>
            Exists(backups[..|backups| - 1], kind, since) || KindOf(backups[|backups| - 1], since) == kind
  {
    hide KindOf;
    var front := backups[..|backups| - 1];
    assert forall j | 0 <= j < |front| :: backups[j] == front[j];
  }

  lemma OnlyOne(backups: seq<Backup>, kind: Kind, since: int)
    requires backups != [] && !Exists(backups[..|backups| - 1], kind, since)
    requires KindOf(backups[|backups| - 1], since) == kind
    ensures LatestAt(|backups| - 1, backups, kind, since)
  {
    hide KindOf, TimeOf;
    var front := backups[..|backups| - 1];
    assert forall j | 0 <= j < |front| :: backups[j] == front[j];
  }

  lemma LatestOneMore(backups: seq<Backup>, i: int, kind: Kind, since: int)
    requires backups != [] && LatestAt(i, backups[..|backups| - 1], kind, since)
    ensures var n := |backups| - 1;
            LatestAt(if KindOf(backups[n], since) == kind && TimeOf(backups[n]) > TimeOf(backups[i]) then n else i,
                     backups, kind, since)
  {
    hide KindOf, TimeOf;
    var front := backups[..|backups| - 1];
    assert forall j | 0 <= j < |front| :: backups[j] == front[j];
  }

  lemma {:induction false} LatestIsLatest(backups: seq<Backup>, kind: Kind, since: int)
    ensures Latest(backups, kind, since).Some? <==> Exists(backups, kind, since)
    ensures Latest(backups, kind, since).Some? ==>
              IsLatest(Latest(backups, kind, since).value, backups, kind, since)
  {
    if backups == [] {
    } else {
      var n := |backups| - 1;
      LatestIsLatest(backups[..n], kind, since);
      ExistsOneMore(backups, kind, since);
      var before := Latest(backups[..n], kind, since);
      hide KindOf, TimeOf, Exists;
      if before.Some? {
        var i :| LatestAt(i, backups[..n], kind, since) && backups[..n][i] == before.value;
        LatestOneMore(backups, i, kind, since);
      } else if KindOf(backups[n], since) == kind {
        OnlyOne(backups, kind, since);
      }
    }
  }

  /** The whole selection rule, for every list. */
  lemma PickIsTheRule(backups: seq<Backup>, since: int)
    ensures var r := Pick(backups, since);
            if Exists(backups, Running, since) then
              exists b :: IsLatest(b, backups, Running, since) && r == Report(b, Running)
            else if Exists(backups, Done, since) then
              exists b :: IsLatest(b, backups, Done, since) && r == Report(b, Done)
            else if Exists(backups, Broken, since) then
              exists b :: IsLatest(b, backups, Broken, since) && r == Report(b, Broken)
            else r == NOTHING
  {
    LatestIsLatest(backups, Running, since);
    LatestIsLatest(backups, Done, since);
    LatestIsLatest(backups, Broken, since);
  }

  /** The phases no backup leaves. */
  const OVER := {"Completed", "Failed", "PartiallyFailed", "FailedValidation", "Deleting"}

  /** A backup that began at or after `since`, or where its beginning is not known, was over then. */
  predicate InTime(b: Backup, since: int) {
    if b.started != 0 then b.started >= since else b.completed != 0 && b.completed >= since
  }

  lemma KindMeans(b: Backup, since: int)
    ensures KindOf(b, since) == Running <==> b.phase !in OVER
    ensures KindOf(b, since) == Done <==> b.phase == "Completed" && InTime(b, since)
    ensures KindOf(b, since) == Broken <==> b.phase in OVER - {"Completed"} && InTime(b, since)
    ensures TimeOf(b) == if b.phase in OVER && b.started == 0 then b.completed else b.started
  {
  }

  /** A completed verdict rests on a Completed backup dated at or after `since`,
      and on no backup still running. */
  lemma CompletedMeansCovered(backups: seq<Backup>, since: int)
    ensures Pick(backups, since).completed <==>
            && (forall b | b in backups :: b.phase in OVER)
            && exists b | b in backups :: b.phase == "Completed" && InTime(b, since)
  {
    LatestIsLatest(backups, Running, since);
    LatestIsLatest(backups, Done, since);
    LatestIsLatest(backups, Broken, since);
    forall b: Backup
      ensures KindOf(b, since) == Running <==> b.phase !in OVER
      ensures KindOf(b, since) == Done <==> b.phase == "Completed" && InTime(b, since)
    {
      KindMeans(b, since);
    }
    hide KindOf, OVER, InTime, Latest;
  }

  /** A verdict is of one of the backups, under its name, in its phase, dated as it is, completed or
      failed as that phase says; there is none exactly when every backup is over and out of time. */
  lemma VerdictIsOfABackup(backups: seq<Backup>, since: int)
    ensures var r := Pick(backups, since);
            && (r.found <==> exists b | b in backups :: b.phase !in OVER || InTime(b, since))
            && (r.found ==> exists b | b in backups :: r.name == b.name && r.phase == b.phase
                                                       && r.startedAt == if b.phase in OVER && b.started == 0 then b.completed
                                                                        else b.started)
            && (r.failed <==> r.found && r.phase in OVER - {"Completed"})
            && (r.completed <==> r.found && r.phase == "Completed")
  {
    LatestIsLatest(backups, Running, since);
    LatestIsLatest(backups, Done, since);
    LatestIsLatest(backups, Broken, since);
    forall b: Backup
      ensures KindOf(b, since) == Running <==> b.phase !in OVER
      ensures KindOf(b, since) == Done <==> b.phase == "Completed" && InTime(b, since)
      ensures KindOf(b, since) == Broken <==> b.phase in OVER - {"Completed"} && InTime(b, since)
      ensures TimeOf(b) == if b.phase in OVER && b.started == 0 then b.completed else b.started
    {
      KindMeans(b, since);
    }
    assert "Completed" in OVER;
    hide KindOf, OVER, InTime, Latest, TimeOf;
  }

  lemma SameMembers(xs: seq<Backup>, ys: seq<Backup>, kind: Kind, since: int)
    requires multiset(xs) == multiset(ys)
    ensures Exists(xs, kind, since) ==> Exists(ys, kind, since)
  {
    if Exists(xs, kind, since) {
      var i :| 0 <= i < |xs| && KindOf(xs[i], since) == kind;
      assert xs[i] in multiset(xs);
      assert xs[i] in ys;
    }
  }

  lemma SameTime(xs: seq<Backup>, ys: seq<Backup>, kind: Kind, since: int)
    requires multiset(xs) == multiset(ys)
    ensures Latest(xs, kind, since).Some? <==> Latest(ys, kind, since).Some?
    ensures Latest(xs, kind, since).Some? ==>
              TimeOf(Latest(xs, kind, since).value) == TimeOf(Latest(ys, kind, since).value)
  {
    LatestIsLatest(xs, kind, since);
    LatestIsLatest(ys, kind, since);
    SameMembers(xs, ys, kind, since);
    SameMembers(ys, xs, kind, since);
    if Latest(xs, kind, since).Some? {
      var a, b := Latest(xs, kind, since).value, Latest(ys, kind, since).value;
      assert a in multiset(xs) && b in multiset(ys);
      assert a in ys && b in xs;
    }
  }

  /** The verdict and its time do not depend on the order Velero lists backups in. */
  lemma OrderDoesNotMatter(xs: seq<Backup>, ys: seq<Backup>, since: int)
    requires multiset(xs) == multiset(ys)
    ensures var a, b := Pick(xs, since), Pick(ys, since);
            a.found == b.found && a.completed == b.completed && a.failed == b.failed && a.startedAt == b.startedAt
  {
    SameTime(xs, ys, Running, since);
    SameTime(xs, ys, Done, since);
    SameTime(xs, ys, Broken, since);
  }
}
