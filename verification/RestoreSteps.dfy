/**
 Controller instances that overlap: their passes cut into steps, at every access to the
 marker and before every answer to a request, and the steps of any number of them
 interleaved. A pass of one instance alone is its steps, one after the other.
 */
module RestoreSteps {
  import opened Wrappers
  import opened Turns
  import opened Conditions
  import opened RestoreWorld
  import opened RestoreSequence
  import opened RestoreController

  // ---- many instances over one site ----

  /** Where an instance stands: between two passes, or before its next access to the marker
      or its next answer to a request. Whatever else a pass does happens in between. */
  datatype Stage =
    | Resting
    | Begun(l: Local, p: Pass)
    | RestoreReserved(l: Local, p: Pass)
    | RestoreOver(l: Local, restoring: End, p: Pass)
    | BackupReserved(l: Local, restoring: End, p: Pass)
    | BackupOver(l: Local, restoring: End, saving: End, p: Pass)

  /** An instance and its memory: the restores after which it knows Flux to be resumed. */
  datatype Instance = Instance(stage: Stage, resolved: set<string>)

  datatype System = System(c: Site, instances: map<nat, Instance>)

  /** A new request, on the version the pass read, with nothing in its way. */
  predicate MayReserve(l: Local, name: string) {
    WantsRestore(l) && !Busy(l.st.restore) && (l.read.target == "" || l.read.target == name)
  }

  function Begin(c: Site, p: Pass): (Site, Stage) {
    var c0 := HappenAll(c, p.idle);
    if c0.markers == [] then (c0, Resting) else (c0, Begun(Opened(c0, p), p))
  }

  /** After the restore part, or the backup part: a killed process is back to the beginning. */
  function ToBackup(s: Step, p: Pass): (Site, Stage) {
    if s.end == Dies then (Forgotten(s.c), Resting) else (s.c, RestoreOver(s.l, s.end, p))
  }

  function ToFinish(s: Step, restoring: End, p: Pass): (Site, Stage) {
    if s.end == Dies then (Forgotten(s.c), Resting) else (s.c, BackupOver(s.l, restoring, s.end, p))
  }

  /** One step of a pass, up to its next access to the marker or its next answer. */
  function Advance(c: Site, name: string, stage: Stage): (Site, Stage) {
    match stage
    case Resting => (c, Resting)
    case Begun(l, p) =>
      if MayReserve(l, name) then
        var (c1, l1, f) := Store(c, p.reserve, l.(st := Reservation(l.read, l.st, c.now)));
        match f
        case Dead => (Forgotten(c1), Resting)
        case Fault => (c1, RestoreOver(l1, Errs(0), p))
        case Fine => (c1, RestoreReserved(l1, p))
      else ToBackup(ReconcileRestore(c, name, l, p), p)
    case RestoreReserved(l, p) => ToBackup(CallSequence(c, name, l, p), p)
    case RestoreOver(l, restoring, p) =>
      if WantsBackup(l) then
        var (c1, l1, f) := Store(c, p.consume, l.(st := l.st.(backup := BackupStatus(l.read.backupAsk, "", "New"))));
        match f
        case Dead => (Forgotten(c1), Resting)
        case Fault => (c1, BackupOver(l1, restoring, Errs(0), p))
        case Fine => (c1, BackupReserved(l1, restoring, p))
      else ToFinish(ReconcileBackup(c, l, p), restoring, p)
    case BackupReserved(l, restoring, p) => ToFinish(TakeBackup(c, l, p), restoring, p)
    case BackupOver(l, restoring, saving, p) => (Finish(c, l, restoring, saving, p).0, Resting)
  }

  datatype Action = Start(i: nat, p: Pass) | Move(i: nat) | Stop(i: nat)

  function InstanceAt(s: System, i: nat): Instance {
    if i in s.instances then s.instances[i] else Instance(Resting, {})
  }

  /** One step of one instance, in its own memory; a crash loses that memory. */
  function Do(s: System, name: string, a: Action): System {
    var x := InstanceAt(s, a.i);
    var mine := s.c.(resolved := x.resolved);
    match a
    case Start(i, p) =>
      if x.stage == Resting then
        var (c1, stage) := Begin(mine, p);
        System(c1, s.instances[i := Instance(stage, c1.resolved)])
      else s
    case Move(i) =>
      var (c1, stage) := Advance(mine, name, x.stage);
      System(c1, s.instances[i := Instance(stage, c1.resolved)])
    case Stop(i) => s.(instances := s.instances[i := Instance(Resting, {})])
  }

  function DoAll(s: System, name: string, actions: seq<Action>): System {
    if actions == [] then s else Do(DoAll(s, name, actions[..|actions| - 1]), name, actions[|actions| - 1])
  }

  // ---- a pass is the steps of an instance ----

  /** What is left of a pass, done without interruption. */
  function Rest(c: Site, name: string, stage: Stage): Site {
    match stage
    case Resting => c
    case Begun(l, p) => AfterRestore(ReconcileRestore(c, name, l, p), p)
    case RestoreReserved(l, p) => AfterRestore(CallSequence(c, name, l, p), p)
    case RestoreOver(l, restoring, p) => AfterBackup(ReconcileBackup(c, l, p), restoring, p)
    case BackupReserved(l, restoring, p) => AfterBackup(TakeBackup(c, l, p), restoring, p)
    case BackupOver(l, restoring, saving, p) => Finish(c, l, restoring, saving, p).0
  }

  function AfterBackup(s: Step, restoring: End, p: Pass): Site {
    if s.end == Dies then Forgotten(s.c) else Finish(s.c, s.l, restoring, s.end, p).0
  }

  function AfterRestore(s: Step, p: Pass): Site {
    if s.end == Dies then Forgotten(s.c) else AfterBackup(ReconcileBackup(s.c, s.l, p), s.end, p)
  }

  function Left(stage: Stage): nat {
    match stage
    case Resting => 0
    case BackupOver(_, _, _, _) => 1
    case BackupReserved(_, _, _) => 2
    case RestoreOver(_, _, _) => 3
    case RestoreReserved(_, _) => 4
    case Begun(_, _) => 5
  }

  /** A step leaves the rest of the pass what it was, and brings its end nearer. */
  lemma AdvanceKeepsRest(c: Site, name: string, stage: Stage)
    ensures var (d, next) := Advance(c, name, stage);
            && Rest(d, name, next) == Rest(c, name, stage)
            && (stage != Resting ==> Left(next) < Left(stage))
  {
    hide Store, Reservation, TakeBackup, CallSequence, Finish, FollowRestore, Recover, HappenAll, Busy;
  }

  /** Steps of the only instance at work. */
  lemma {:induction false} Drains(s: System, name: string, i: nat) returns (actions: seq<Action>)
    requires i in s.instances && s.instances[i].resolved == s.c.resolved
    ensures DoAll(s, name, actions).c == Rest(s.c, name, s.instances[i].stage)
    ensures InstanceAt(DoAll(s, name, actions), i) == Instance(Resting, DoAll(s, name, actions).c.resolved)
    decreases Left(s.instances[i].stage)
  {
    var stage := s.instances[i].stage;
    if stage == Resting {
      actions := [];
    } else {
      hide Rest, Advance;
      AdvanceKeepsRest(s.c, name, stage);
      assert s.c.(resolved := s.instances[i].resolved) == s.c;
      var s1 := Do(s, name, Move(i));
      var later := Drains(s1, name, i);
      actions := [Move(i)] + later;
      DoFirst(s, name, Move(i), later);
    }
  }

  lemma {:induction false} DoFirst(s: System, name: string, a: Action, later: seq<Action>)
    ensures DoAll(s, name, [a] + later) == DoAll(Do(s, name, a), name, later)
  {
    hide Do;
    if later == [] {
      assert [a] + later == [a];
      assert [a][..0] == [];
    } else {
      var n := |later| - 1;
      DoFirst(s, name, a, later[..n]);
      assert ([a] + later)[..n + 1] == [a] + later[..n];
    }
  }

  lemma {:induction false} DoBoth(s: System, name: string, first: seq<Action>, later: seq<Action>)
    ensures DoAll(s, name, first + later) == DoAll(DoAll(s, name, first), name, later)
  {
    hide Do;
    if later == [] {
      assert first + later == first;
    } else {
      var n := |later| - 1;
      DoBoth(s, name, first, later[..n]);
      assert (first + later)[..|first| + n] == first + later[..n];
    }
  }

  /** A pass is one instance's steps, from its beginning to its end. */
  lemma PassIsSteps(s: System, name: string, i: nat, p: Pass) returns (actions: seq<Action>)
    requires InstanceAt(s, i) == Instance(Resting, s.c.resolved)
    ensures DoAll(s, name, actions).c == Reconcile(s.c, name, p).0
    ensures InstanceAt(DoAll(s, name, actions), i) == Instance(Resting, DoAll(s, name, actions).c.resolved)
  {
    assert s.c.(resolved := s.c.resolved) == s.c;
    var s1 := Do(s, name, Start(i, p));
    assert Rest(s1.c, name, s1.instances[i].stage) == Reconcile(s.c, name, p).0 by {
      hide HappenAll, ReconcileRestore, ReconcileBackup, Finish, Opened;
    }
    hide Do, Reconcile, Rest;
    var later := Drains(s1, name, i);
    actions := [Start(i, p)] + later;
    DoFirst(s, name, Start(i, p), later);
  }

  /** Every run of passes is an interleaving: that of one instance alone. */
  lemma {:induction false} RunIsSteps(c: Site, name: string, ps: seq<Pass>) returns (actions: seq<Action>)
    ensures DoAll(System(c, map[0 := Instance(Resting, c.resolved)]), name, actions).c == Run(c, name, ps)
    ensures var s := DoAll(System(c, map[0 := Instance(Resting, c.resolved)]), name, actions);
            InstanceAt(s, 0) == Instance(Resting, s.c.resolved)
  {
    if ps == [] {
      actions := [];
    } else {
      hide Reconcile, Do;
      var start := System(c, map[0 := Instance(Resting, c.resolved)]);
      var before := RunIsSteps(c, name, ps[..|ps| - 1]);
      var last := PassIsSteps(DoAll(start, name, before), name, 0, ps[|ps| - 1]);
      actions := before + last;
      DoBoth(start, name, before, last);
    }
  }
}
