/**
 At most one answer per request, under any interleaving of overlapping controller
 instances, stale reads, failed status writes and crashes: the request is reserved by a
 version-checked write, made before it is acted on.
 */
module RestoreOnce {
  import opened Wrappers
  import opened Turns
  import BackupSelection
  import opened Conditions
  import opened RestoreWorld
  import opened RestoreSequence
  import opened RestoreController
  import opened RestoreAside
  import opened RestoreSteps

  // ---- the two kinds of request ----

  datatype Kind = RestoreRequest | BackupRequest

  function Ask(m: Marker, kind: Kind): string {
    match kind case RestoreRequest => m.restoreAsk case BackupRequest => m.backupAsk
  }

  function Handled(st: OpsStatus, kind: Kind): string {
    match kind case RestoreRequest => st.restore.handled case BackupRequest => st.backup.handled
  }

  /** The log's entry for a request answered. */
  function Answer(kind: Kind, ask: string): Entry {
    match kind case RestoreRequest => Called(ask) case BackupRequest => TriggeredBackup(ask)
  }

  predicate IsAnswer(e: Entry, kind: Kind) {
    match kind case RestoreRequest => e.Called? case BackupRequest => e.TriggeredBackup?
  }

  predicate Used(ms: seq<Marker>, ask: string, kind: Kind) {
    exists m | m in ms :: Ask(m, kind) == ask
  }

  /** No version brings back a request that an earlier one had replaced. */
  predicate NeverReused(ms: seq<Marker>, kind: Kind) {
    |ms| <= 1 || (NeverReused(ms[..|ms| - 1], kind) && Fresh(ms[..|ms| - 1], ms[|ms| - 1], kind))
  }

  predicate Fresh(ms: seq<Marker>, m: Marker, kind: Kind) {
    ms != [] && (Ask(m, kind) == Ask(ms[|ms| - 1], kind) || Ask(m, kind) == "" || !Used(ms, Ask(m, kind), kind))
  }

  lemma {:induction false} PrefixNeverReused(ms: seq<Marker>, n: nat, kind: Kind)
    requires n <= |ms| && NeverReused(ms, kind)
    ensures NeverReused(ms[..n], kind)
    decreases |ms|
  {
    if n == |ms| {
      assert ms[..n] == ms;
    } else if |ms| <= 1 {
      assert ms[..n] == [];
    } else {
      PrefixNeverReused(ms[..|ms| - 1], n, kind);
      assert ms[..|ms| - 1][..n] == ms[..n];
    }
  }

  // ---- the invariant ----

  /** Before the instance has decided on the request: it knows what its version handled. */
  predicate Undecided(stage: Stage, kind: Kind) {
    stage.Begun? || (kind == BackupRequest && (stage.RestoreReserved? || stage.RestoreOver?))
  }

  /** The reservation is acknowledged, the answer next. */
  predicate Granted(stage: Stage, kind: Kind) {
    match kind case RestoreRequest => stage.RestoreReserved? case BackupRequest => stage.BackupReserved?
  }

  /** What an instance would store comes from the version it names. */
  predicate Rooted(ms: seq<Marker>, l: Local, kind: Kind) {
    && l.version < |ms| && Ask(ms[l.version], kind) == Ask(l.read, kind)
    && Handled(l.st, kind) in {Handled(ms[l.version].status, kind), Ask(l.read, kind)}
  }

  predicate Sound(ms: seq<Marker>, stage: Stage, kind: Kind) {
    stage == Resting
    || (Rooted(ms, stage.l, kind)
        && (Undecided(stage, kind) ==> Handled(stage.l.st, kind) == Handled(ms[stage.l.version].status, kind)))
  }

  /** A request answered, or about to be, is an old one or is handled. */
  predicate Spent(ms: seq<Marker>, ask: string, kind: Kind) {
    && ms != [] && ask != "" && Used(ms, ask, kind)
    && (Ask(ms[|ms| - 1], kind) == ask ==> Handled(ms[|ms| - 1].status, kind) == ask)
  }

  ghost predicate Inv(s: System, kind: Kind) {
    && s.c.markers != [] && NeverReused(s.c.markers, kind)
    && (forall i | i in s.instances :: Sound(s.c.markers, s.instances[i].stage, kind))
    && (forall i | i in s.instances && Granted(s.instances[i].stage, kind) ::
          var ask := Ask(s.instances[i].stage.l.read, kind);
          Spent(s.c.markers, ask, kind) && Answer(kind, ask) !in s.c.log)
    && (forall i, j | i in s.instances && j in s.instances && i != j
                      && Granted(s.instances[i].stage, kind) && Granted(s.instances[j].stage, kind) ::
          Ask(s.instances[i].stage.l.read, kind) != Ask(s.instances[j].stage.l.read, kind))
    && (forall ask | Answer(kind, ask) in s.c.log :: Spent(s.c.markers, ask, kind))
    && Once(s.c.log, kind)
  }

  /** No answer twice. */
  ghost predicate Once(log: seq<Entry>, kind: Kind) {
    forall j, k | 0 <= j < k < |log| && IsAnswer(log[j], kind) :: log[j] != log[k]
  }

  // ---- what keeps the invariant ----

  /** The log went on, and no request of that kind was answered. */
  ghost predicate SameAnswers(before: seq<Entry>, after: seq<Entry>, kind: Kind) {
    before <= after && forall i | |before| <= i < |after| :: !IsAnswer(after[i], kind)
  }

  lemma UnansweredIsSame(before: seq<Entry>, after: seq<Entry>, kind: Kind)
    requires Unanswered(before, after)
    ensures SameAnswers(before, after, kind)
  {
    assert forall e: Entry :: IsAnswer(e, kind) ==> Answers(e);
  }

  lemma SpentStays(ms: seq<Marker>, m: Marker, ask: string, kind: Kind)
    requires Spent(ms, ask, kind) && Fresh(ms, m, kind)
    requires Ask(m, kind) == Ask(ms[|ms| - 1], kind) ==>
               Handled(m.status, kind) in {Handled(ms[|ms| - 1].status, kind), Ask(m, kind)}
    ensures Spent(ms + [m], ask, kind)
  {
    hide Ask, Handled;
    var used :| used in ms && Ask(used, kind) == ask;
    assert used in ms + [m];
  }

  lemma {:induction false} SpentGrows(c: Site, d: Site, ask: string, kind: Kind)
    requires Grown(c, d) && Spent(c.markers, ask, kind) && NeverReused(d.markers, kind)
    ensures Spent(d.markers, ask, kind)
    decreases |d.markers|
  {
    var n := |d.markers| - 1;
    if |d.markers| == |c.markers| {
      assert d.markers == d.markers[..|c.markers|];
    } else {
      hide Spent, Fresh;
      var e := d.(markers := d.markers[..n]);
      assert d.markers[..n][..|c.markers|] == d.markers[..|c.markers|];
      assert Grown(c, e);
      SpentGrows(c, e, ask, kind);
      CarriedOn(c, d);
      SpentStays(d.markers[..n], d.markers[n], ask, kind);
      assert d.markers[..n] + [d.markers[n]] == d.markers;
    }
  }

  lemma CarriedOn(c: Site, d: Site)
    requires Grown(c, d) && c.markers != [] && |d.markers| > |c.markers|
    ensures d.markers[|d.markers| - 1].status == d.markers[|d.markers| - 2].status
  {
    assert |d.markers| - 2 < |c.markers| ==> d.markers[..|c.markers|][|d.markers| - 2] == c.markers[|d.markers| - 2];
  }

  lemma SoundGrows(c: Site, d: Site, stage: Stage, kind: Kind)
    requires c.markers <= d.markers && Sound(c.markers, stage, kind)
    ensures Sound(d.markers, stage, kind)
  {
    hide Ask, Handled;
  }

  lemma OnceStays(before: seq<Entry>, after: seq<Entry>, kind: Kind)
    requires Once(before, kind) && SameAnswers(before, after, kind)
    ensures Once(after, kind)
    ensures forall ask :: Answer(kind, ask) in after <==> Answer(kind, ask) in before
  {
    forall j, k | 0 <= j < k < |after| && IsAnswer(after[j], kind)
      ensures after[j] != after[k]
    {
      assert j < |before|;
      assert after[j] == before[j];
      assert k < |before| ==> after[k] == before[k];
    }
  }

  /** Whatever happens aside. */
  lemma AsideKeeps(s: System, d: Site, kind: Kind)
    requires Inv(s, kind) && Grown(s.c, d) && SameAnswers(s.c.log, d.log, kind) && NeverReused(d.markers, kind)
    ensures Inv(s.(c := d), kind)
  {
    OnceStays(s.c.log, d.log, kind);
    assert s.c.markers <= d.markers;
    forall i | i in s.instances
      ensures Sound(d.markers, s.instances[i].stage, kind)
    {
      SoundGrows(s.c, d, s.instances[i].stage, kind);
    }
    forall ask: string | Spent(s.c.markers, ask, kind)
      ensures Spent(d.markers, ask, kind)
    {
      SpentGrows(s.c, d, ask, kind);
    }
    hide Sound, Spent, Granted, Ask, Answer, Once, NeverReused;
  }

  /** A status write that lands on top. */
  lemma AppendKeeps(s: System, m: Marker, kind: Kind)
    requires Inv(s, kind) && NeverReused(s.c.markers + [m], kind)
    requires var last := Current(s.c);
             Ask(m, kind) == Ask(last, kind) && Handled(m.status, kind) in {Handled(last.status, kind), Ask(m, kind)}
    ensures Inv(s.(c := s.c.(markers := s.c.markers + [m])), kind)
  {
    var d := s.c.(markers := s.c.markers + [m]);
    assert d.markers[..|d.markers| - 1] == s.c.markers;
    forall i | i in s.instances
      ensures Sound(d.markers, s.instances[i].stage, kind)
    {
      SoundGrows(s.c, d, s.instances[i].stage, kind);
    }
    forall ask: string | Spent(s.c.markers, ask, kind)
      ensures Spent(d.markers, ask, kind)
    {
      SpentStays(s.c.markers, m, ask, kind);
    }
    hide Sound, Spent, Granted, Ask, Answer, Once, NeverReused;
  }

  lemma StageKeeps(s: System, i: nat, x: Instance, kind: Kind)
    requires Inv(s, kind) && Sound(s.c.markers, x.stage, kind) && !Granted(x.stage, kind)
    ensures Inv(s.(instances := s.instances[i := x]), kind)
  {
    hide Sound, Spent, Granted, Ask, Answer, Once, NeverReused;
  }

  /** Neither answered nor about to be. */
  ghost predicate Free(s: System, ask: string, kind: Kind) {
    && Answer(kind, ask) !in s.c.log
    && forall j | j in s.instances && Granted(s.instances[j].stage, kind) :: Ask(s.instances[j].stage.l.read, kind) != ask
  }

  lemma GrantKeeps(s: System, i: nat, x: Instance, kind: Kind)
    requires Inv(s, kind) && Sound(s.c.markers, x.stage, kind) && Granted(x.stage, kind)
    requires var ask := Ask(x.stage.l.read, kind); Spent(s.c.markers, ask, kind) && Free(s, ask, kind)
    ensures Inv(s.(instances := s.instances[i := x]), kind)
  {
    hide Sound, Spent, Granted, Ask, Answer, Once, NeverReused;
  }

  lemma AnswerKeeps(s: System, i: nat, kind: Kind, x: Instance)
    requires Inv(s, kind) && i in s.instances && Granted(s.instances[i].stage, kind)
    requires Sound(s.c.markers, x.stage, kind) && !Granted(x.stage, kind)
    ensures Inv(System(Logged(s.c, Answer(kind, Ask(s.instances[i].stage.l.read, kind))), s.instances[i := x]), kind)
  {
    var ask := Ask(s.instances[i].stage.l.read, kind);
    OnceMore(s.c.log, ask, kind);
    AnswersDiffer(kind);
    hide Sound, Spent, Granted, Ask, Answer, Once, NeverReused;
  }

  lemma OnceMore(log: seq<Entry>, ask: string, kind: Kind)
    requires Once(log, kind) && Answer(kind, ask) !in log
    ensures Once(log + [Answer(kind, ask)], kind)
    ensures forall e :: e in log + [Answer(kind, ask)] <==> e in log || e == Answer(kind, ask)
  {
    hide Answer, IsAnswer;
    var after := log + [Answer(kind, ask)];
    forall j, k | 0 <= j < k < |after| && IsAnswer(after[j], kind)
      ensures after[j] != after[k]
    {
      assert after[j] == log[j] && log[j] in log;
    }
  }

  lemma AnswersDiffer(kind: Kind)
    ensures forall a, b :: Answer(kind, a) == Answer(kind, b) ==> a == b
  {
  }

  // ---- status writes ----

  /** What a status write leaves, and what an acknowledged reservation tells. */
  lemma StoreKeeps(s: System, t: Turn, l: Local, kind: Kind)
    requires Inv(s, kind) && Rooted(s.c.markers, l, kind)
    requires NeverReused(Store(s.c, t, l).0.markers, kind)
    ensures var (d, l', f) := Store(s.c, t, l);
            var s' := s.(c := d);
            && Inv(s', kind) && Rooted(d.markers, l', kind) && l'.st == l.st && l'.read == l.read
            && d.markers != [] && s.c.markers <= d.markers
            && (f == Fine ==> l'.version < |d.markers| && Handled(d.markers[l'.version].status, kind) == Handled(l.st, kind))
            && (f != Fine ==> l' == l)
            && (f == Fine && Reserves(s.c.markers, l, kind) ==>
                  Spent(d.markers, Ask(l.read, kind), kind) && Free(s', Ask(l.read, kind), kind))
  {
    StoreTells(s.c, t, l);
    var a := At(s.c, t);
    var (d, l', f) := Store(s.c, t, l);
    hide HappenAll, Store, NeverReused, Inv;
    UnansweredIsSame(s.c.log, a.log, kind);
    assert a.markers == d.markers[..|a.markers|];
    PrefixNeverReused(d.markers, |a.markers|, kind);
    AsideKeeps(s, a, kind);
    var b := s.(c := a);
    Nonempty(s, kind);
    if TakesEffect(t) && l.version + 1 == |a.markers| {
      var m := Current(a).(status := l.st);
      LandsKeeps(b, l, m, kind);
      assert s.(c := a.(markers := d.markers)).c.markers == d.markers;
      SameView(System(a.(markers := d.markers), s.instances), s.(c := d), kind);
      if Reserves(s.c.markers, l, kind) {
        assert Reserves(a.markers, l, kind);
        NotSpentIsFree(b, Ask(l.read, kind), kind);
      }
    } else {
      SameView(b, s.(c := d), kind);
    }
  }

  /** The request is new to the version it was read from, and the write would reserve it. */
  predicate Reserves(ms: seq<Marker>, l: Local, kind: Kind) {
    && l.version < |ms| && Ask(l.read, kind) != "" && Handled(l.st, kind) == Ask(l.read, kind)
    && Handled(ms[l.version].status, kind) != Ask(l.read, kind) && Ask(ms[l.version], kind) == Ask(l.read, kind)
  }

  lemma Nonempty(s: System, kind: Kind)
    requires Inv(s, kind)
    ensures s.c.markers != []
  {
  }

  lemma SameView(s: System, s': System, kind: Kind)
    requires Inv(s, kind) && s'.instances == s.instances && s'.c.markers == s.c.markers && s'.c.log == s.c.log
    ensures Inv(s', kind)
  {
    hide Sound, Spent, Granted, Ask, Answer, Once;
  }

  lemma LandsKeeps(s: System, l: Local, m: Marker, kind: Kind)
    requires Inv(s, kind) && Rooted(s.c.markers, l, kind) && l.version + 1 == |s.c.markers|
    requires m == Current(s.c).(status := l.st) && NeverReused(s.c.markers + [m], kind)
    ensures Inv(s.(c := s.c.(markers := s.c.markers + [m])), kind)
    ensures Rooted(s.c.markers + [m], l, kind) && Rooted(s.c.markers + [m], l.(version := l.version + 1), kind)
    ensures Reserves(s.c.markers, l, kind) ==> Spent(s.c.markers + [m], Ask(l.read, kind), kind)
  {
    hide Inv;
    AppendKeeps(s, m, kind);
    var ms := s.c.markers + [m];
    assert m in ms;
    assert Ask(m, kind) == Ask(Current(s.c), kind);
  }

  /** A request not handled by the version that asks for it was never answered. */
  lemma NotSpentIsFree(s: System, ask: string, kind: Kind)
    requires Inv(s, kind) && Ask(Current(s.c), kind) == ask && Handled(Current(s.c).status, kind) != ask
    ensures Free(s, ask, kind)
  {
    assert !Spent(s.c.markers, ask, kind);
    hide Sound, Spent, Ask, Answer, Once;
  }

  // ---- the steps of a pass ----

  /** A restore part that reserves nothing. */
  lemma RestoreIsAside(c: Site, name: string, l: Local, p: Pass)
    requires !MayReserve(l, name)
    ensures var s := ReconcileRestore(c, name, l, p);
            Aside(c, s.c) && CarriesOn(l, s.l)
  {
    SameAside(c, c, DeletedEtcd);
    FollowIsAside(c, l, p);
    RecoverIsAside(c, l, p);
    hide Aside, FollowRestore, Recover, Set, Find, IsTerminalRestorePhase, Store, CallSequence;
  }

  lemma AsideInv(s: System, d: Site, kind: Kind)
    requires Inv(s, kind) && Aside(s.c, d) && NeverReused(d.markers, kind)
    ensures Inv(s.(c := d), kind) && s.c.markers <= d.markers
  {
    UnansweredIsSame(s.c.log, d.log, kind);
    AsideKeeps(s, d, kind);
    hide Inv, NeverReused;
  }

  lemma CarriedIsSound(ms: seq<Marker>, stage: Stage, next: Stage, kind: Kind)
    requires stage != Resting && Sound(ms, stage, kind)
    requires next == Resting
             || (CarriesOn(stage.l, next.l) && (Undecided(next, kind) ==> Undecided(stage, kind))
                 && (kind == RestoreRequest ==> !Undecided(next, kind)))
    ensures Sound(ms, next, kind)
  {
  }

  /** One step of an instance keeps the invariant, for requests of either kind. */
  lemma AdvanceKeeps(s: System, name: string, i: nat, kind: Kind)
    requires Inv(s, kind) && i in s.instances
    requires NeverReused(Advance(s.c, name, s.instances[i].stage).0.markers, kind)
    ensures var (d, next) := Advance(s.c, name, s.instances[i].stage);
            forall memory :: Inv(System(d, s.instances[i := Instance(next, memory)]), kind)
  {
    var stage := s.instances[i].stage;
    InstanceIsSound(s, i, kind);
    match stage
    case Resting => RestKeeps(s, i, kind);
    case Begun(l, p) => BegunKeeps(s, name, i, kind, l, p);
    case RestoreReserved(l, p) => RestoreReservedKeeps(s, name, i, kind, l, p);
    case RestoreOver(l, restoring, p) => RestoreOverKeeps(s, name, i, kind, l, restoring, p);
    case BackupReserved(l, restoring, p) => BackupReservedKeeps(s, name, i, kind, l, restoring, p);
    case BackupOver(l, restoring, saving, p) => BackupOverKeeps(s, name, i, kind, l, restoring, saving, p);
  }

  lemma InstanceIsSound(s: System, i: nat, kind: Kind)
    requires Inv(s, kind) && i in s.instances
    ensures Sound(s.c.markers, s.instances[i].stage, kind)
  {
  }

  /** An instance that comes to rest, or to a stage that holds no reservation of the kind. */
  lemma Moves(s: System, d: Site, i: nat, next: Stage, kind: Kind)
    requires Inv(s, kind) && Sound(s.c.markers, next, kind) && !Granted(next, kind)
    requires d.markers == s.c.markers && d.log == s.c.log
    ensures forall memory :: Inv(System(d, s.instances[i := Instance(next, memory)]), kind)
  {
    hide Inv, Sound, Granted;
    forall memory: set<string>
      ensures Inv(System(d, s.instances[i := Instance(next, memory)]), kind)
    {
      StageKeeps(s, i, Instance(next, memory), kind);
      SameView(s.(instances := s.instances[i := Instance(next, memory)]),
               System(d, s.instances[i := Instance(next, memory)]), kind);
    }
  }

  lemma RestKeeps(s: System, i: nat, kind: Kind)
    requires Inv(s, kind)
    ensures forall memory :: Inv(System(s.c, s.instances[i := Instance(Resting, memory)]), kind)
  {
    Moves(s, s.c, i, Resting, kind);
  }

  lemma BegunKeeps(s: System, name: string, i: nat, kind: Kind, l: Local, p: Pass)
    requires Inv(s, kind) && i in s.instances && s.instances[i].stage == Begun(l, p)
    requires Sound(s.c.markers, Begun(l, p), kind)
    requires NeverReused(Advance(s.c, name, Begun(l, p)).0.markers, kind)
    ensures var (d, next) := Advance(s.c, name, Begun(l, p));
            forall memory :: Inv(System(d, s.instances[i := Instance(next, memory)]), kind)
  {
    if MayReserve(l, name) {
      ReserveKeeps(s, name, i, kind, l, p);
    } else {
      RestoreIsAside(s.c, name, l, p);
      var step := ReconcileRestore(s.c, name, l, p);
      hide Inv, Sound, Aside, ReconcileRestore, NeverReused, MayReserve;
      AsideInv(s, step.c, kind);
      SoundGrows(s.c, step.c, Begun(l, p), kind);
      var (d, next) := ToBackup(step, p);
      CarriedIsSound(step.c.markers, Begun(l, p), next, kind);
      Moves(s.(c := step.c), d, i, next, kind);
    }
  }

  lemma ReserveKeeps(s: System, name: string, i: nat, kind: Kind, l: Local, p: Pass)
    requires Inv(s, kind) && i in s.instances && s.instances[i].stage == Begun(l, p) && MayReserve(l, name)
    requires Sound(s.c.markers, Begun(l, p), kind)
    requires NeverReused(Advance(s.c, name, Begun(l, p)).0.markers, kind)
    ensures var (d, next) := Advance(s.c, name, Begun(l, p));
            forall memory :: Inv(System(d, s.instances[i := Instance(next, memory)]), kind)
  {
    var l0 := l.(st := Reservation(l.read, l.st, s.c.now));
    assert Rooted(s.c.markers, l0, kind) && (kind == RestoreRequest ==> Reserves(s.c.markers, l0, kind)) by {
      hide Set, Remove, Busy, Store;
    }
    assert l0.st.backup == l.st.backup;
    hide Inv, Store, Reservation, NeverReused, Rooted, Reserves, Busy;
    var (c1, l1, f) := Store(s.c, p.reserve, l0);
    var (d, next) := Advance(s.c, name, Begun(l, p));
    assert d.markers == c1.markers && d.log == c1.log;
    StoreKeeps(s, p.reserve, l0, kind);
    var s1 := s.(c := c1);
    if f == Fine && kind == RestoreRequest {
      forall memory: set<string>
        ensures Inv(System(d, s.instances[i := Instance(next, memory)]), kind)
      {
        GrantKeeps(s1, i, Instance(next, memory), kind);
      }
    } else {
      assert Sound(c1.markers, next, kind);
      Moves(s1, d, i, next, kind);
    }
  }

  lemma RestoreReservedKeeps(s: System, name: string, i: nat, kind: Kind, l: Local, p: Pass)
    requires Inv(s, kind) && i in s.instances && s.instances[i].stage == RestoreReserved(l, p)
    requires Sound(s.c.markers, RestoreReserved(l, p), kind)
    requires NeverReused(Advance(s.c, name, RestoreReserved(l, p)).0.markers, kind)
    ensures var (d, next) := Advance(s.c, name, RestoreReserved(l, p));
            forall memory :: Inv(System(d, s.instances[i := Instance(next, memory)]), kind)
  {
    var stage := RestoreReserved(l, p);
    CallIsSequence(s.c, name, l, p);
    var c0 := Logged(s.c, Called(l.read.restoreAsk));
    var step := CallSequence(s.c, name, l, p);
    var (d, next) := ToBackup(step, p);
    hide Inv, Sound, Aside, CallSequence, NeverReused;
    var mid := if next == Resting then Resting else RestoreOver(l, Wants(0), p);
    Answered(s, i, stage, mid, c0, kind);
    AsideInv(System(c0, s.instances[i := Instance(mid, {})]), step.c, kind);
    SoundGrows(s.c, step.c, stage, kind);
    CarriedIsSound(step.c.markers, stage, next, kind);
    MovesOn(s, step.c, d, i, mid, next, kind);
  }

  /** The answer to a reserved request is logged; for the other kind it is any entry. */
  lemma Answered(s: System, i: nat, stage: Stage, mid: Stage, d: Site, kind: Kind)
    requires Inv(s, kind) && i in s.instances && s.instances[i].stage == stage && Sound(s.c.markers, stage, kind)
    requires match stage
             case RestoreReserved(l, p) =>
               d == Logged(s.c, Called(l.read.restoreAsk)) && (mid == Resting || mid == RestoreOver(l, Wants(0), p))
             case BackupReserved(l, restoring, p) =>
               d == Logged(s.c, TriggeredBackup(l.read.backupAsk))
               && (mid == Resting || mid == BackupOver(l, restoring, Wants(0), p))
             case _ => false
    ensures Inv(System(d, s.instances[i := Instance(mid, {})]), kind) && d.markers == s.c.markers
  {
    CarriedIsSound(s.c.markers, stage, mid, kind);
    hide Inv, Sound;
    if Granted(stage, kind) {
      AnswerKeeps(s, i, kind, Instance(mid, {}));
    } else {
      StageKeeps(s, i, Instance(mid, {}), kind);
      var s1 := s.(instances := s.instances[i := Instance(mid, {})]);
      AnsweredOther(s1, d, kind);
    }
  }

  lemma AnsweredOther(s: System, d: Site, kind: Kind)
    requires Inv(s, kind) && d.markers == s.c.markers && exists e :: d.log == s.c.log + [e] && !IsAnswer(e, kind)
    ensures Inv(s.(c := d), kind)
  {
    assert d.markers[..|s.c.markers|] == s.c.markers;
    assert Grown(s.c, d);
    AsideKeeps(s, d, kind);
  }

  /** As Moves, from a stage the instance only passed through. */
  lemma MovesOn(s: System, c: Site, d: Site, i: nat, mid: Stage, next: Stage, kind: Kind)
    requires Inv(System(c, s.instances[i := Instance(mid, {})]), kind)
    requires Sound(c.markers, next, kind) && !Granted(next, kind) && d.markers == c.markers && d.log == c.log
    ensures forall memory :: Inv(System(d, s.instances[i := Instance(next, memory)]), kind)
  {
    hide Inv, Sound, Granted;
    Moves(System(c, s.instances[i := Instance(mid, {})]), d, i, next, kind);
    forall memory: set<string>
      ensures Inv(System(d, s.instances[i := Instance(next, memory)]), kind)
    {
      assert s.instances[i := Instance(mid, {})][i := Instance(next, memory)] == s.instances[i := Instance(next, memory)];
    }
  }

  lemma RestoreOverKeeps(s: System, name: string, i: nat, kind: Kind, l: Local, restoring: End, p: Pass)
    requires Inv(s, kind) && i in s.instances && s.instances[i].stage == RestoreOver(l, restoring, p)
    requires Sound(s.c.markers, RestoreOver(l, restoring, p), kind)
    requires NeverReused(Advance(s.c, name, RestoreOver(l, restoring, p)).0.markers, kind)
    ensures var (d, next) := Advance(s.c, name, RestoreOver(l, restoring, p));
            forall memory :: Inv(System(d, s.instances[i := Instance(next, memory)]), kind)
  {
    var stage := RestoreOver(l, restoring, p);
    if WantsBackup(l) {
      ConsumeKeeps(s, name, i, kind, l, restoring, p);
    } else {
      BackupIsAside(s.c, l, p);
      var step := ReconcileBackup(s.c, l, p);
      hide Inv, Sound, Aside, ReconcileBackup, NeverReused, WantsBackup;
      AsideInv(s, step.c, kind);
      SoundGrows(s.c, step.c, stage, kind);
      var (d, next) := ToFinish(step, restoring, p);
      CarriedIsSound(step.c.markers, stage, next, kind);
      Moves(s.(c := step.c), d, i, next, kind);
    }
  }

  lemma ConsumeKeeps(s: System, name: string, i: nat, kind: Kind, l: Local, restoring: End, p: Pass)
    requires Inv(s, kind) && i in s.instances && s.instances[i].stage == RestoreOver(l, restoring, p) && WantsBackup(l)
    requires Sound(s.c.markers, RestoreOver(l, restoring, p), kind)
    requires NeverReused(Advance(s.c, name, RestoreOver(l, restoring, p)).0.markers, kind)
    ensures var (d, next) := Advance(s.c, name, RestoreOver(l, restoring, p));
            forall memory :: Inv(System(d, s.instances[i := Instance(next, memory)]), kind)
  {
    var l0 := l.(st := l.st.(backup := BackupStatus(l.read.backupAsk, "", "New")));
    assert Rooted(s.c.markers, l0, kind) && (kind == BackupRequest ==> Reserves(s.c.markers, l0, kind));
    hide Inv, Store, NeverReused, Rooted, Reserves;
    var (c1, l1, f) := Store(s.c, p.consume, l0);
    var (d, next) := Advance(s.c, name, RestoreOver(l, restoring, p));
    assert d.markers == c1.markers && d.log == c1.log;
    StoreKeeps(s, p.consume, l0, kind);
    var s1 := s.(c := c1);
    if f == Fine && kind == BackupRequest {
      forall memory: set<string>
        ensures Inv(System(d, s.instances[i := Instance(next, memory)]), kind)
      {
        GrantKeeps(s1, i, Instance(next, memory), kind);
      }
    } else {
      assert Sound(c1.markers, next, kind);
      Moves(s1, d, i, next, kind);
    }
  }

  lemma BackupReservedKeeps(s: System, name: string, i: nat, kind: Kind, l: Local, restoring: End, p: Pass)
    requires Inv(s, kind) && i in s.instances && s.instances[i].stage == BackupReserved(l, restoring, p)
    requires Sound(s.c.markers, BackupReserved(l, restoring, p), kind)
    requires NeverReused(Advance(s.c, name, BackupReserved(l, restoring, p)).0.markers, kind)
    ensures var (d, next) := Advance(s.c, name, BackupReserved(l, restoring, p));
            forall memory :: Inv(System(d, s.instances[i := Instance(next, memory)]), kind)
  {
    var stage := BackupReserved(l, restoring, p);
    TakingIsOne(s.c, l, p);
    var a := At(s.c, p.trigger);
    var step := TakeBackup(s.c, l, p);
    var (d, next) := ToFinish(step, restoring, p);
    hide Inv, Sound, Aside, TakeBackup, NeverReused, HappenAll;
    AsideInv(s, a, kind);
    SoundGrows(s.c, a, stage, kind);
    var s1 := s.(c := a);
    CarriedIsSound(a.markers, stage, next, kind);
    if step.c.log == a.log {
      Moves(s1, d, i, next, kind);
    } else {
      var mid := if next == Resting then Resting else BackupOver(l, restoring, Wants(0), p);
      var c0 := Logged(a, TriggeredBackup(l.read.backupAsk));
      Answered(s1, i, stage, mid, c0, kind);
      MovesOn(s1, c0, d, i, mid, next, kind);
    }
  }

  lemma BackupOverKeeps(s: System, name: string, i: nat, kind: Kind, l: Local, restoring: End, saving: End, p: Pass)
    requires Inv(s, kind) && i in s.instances && s.instances[i].stage == BackupOver(l, restoring, saving, p)
    requires Sound(s.c.markers, BackupOver(l, restoring, saving, p), kind)
    requires NeverReused(Advance(s.c, name, BackupOver(l, restoring, saving, p)).0.markers, kind)
    ensures var (d, next) := Advance(s.c, name, BackupOver(l, restoring, saving, p));
            forall memory :: Inv(System(d, s.instances[i := Instance(next, memory)]), kind)
  {
    hide Inv, Store, NeverReused, Rooted;
    var c1 := Store(s.c, p.store, l).0;
    var (d, next) := Advance(s.c, name, BackupOver(l, restoring, saving, p));
    assert d.markers == c1.markers && d.log == c1.log;
    StoreKeeps(s, p.store, l, kind);
    Moves(s.(c := c1), d, i, Resting, kind);
  }

  // ---- at most once ----

  lemma DoKeeps(s: System, name: string, a: Action, kind: Kind)
    requires Inv(s, kind) && NeverReused(Do(s, name, a).c.markers, kind)
    ensures Inv(Do(s, name, a), kind)
  {
    var x := InstanceAt(s, a.i);
    var mine := s.c.(resolved := x.resolved);
    hide Inv, Advance, NeverReused;
    SameView(s, s.(c := mine), kind);
    var s1 := s.(c := mine);
    match a
    case Start(i, p) =>
      if x.stage == Resting {
        BeginKeeps(s1, i, p, kind);
      }
    case Move(i) =>
      if i in s.instances {
        AdvanceKeeps(s1, name, i, kind);
      } else {
        RestKeeps(s1, i, kind);
        assert Advance(mine, name, Resting) == (mine, Resting) by {
          RestingStays(mine, name);
        }
      }
    case Stop(i) => RestKeeps(s, i, kind);
  }

  lemma RestingStays(c: Site, name: string)
    ensures Advance(c, name, Resting) == (c, Resting)
  {
  }

  lemma BeginKeeps(s: System, i: nat, p: Pass, kind: Kind)
    requires Inv(s, kind) && NeverReused(Begin(s.c, p).0.markers, kind)
    ensures var (d, stage) := Begin(s.c, p);
            forall memory :: Inv(System(d, s.instances[i := Instance(stage, memory)]), kind)
  {
    EventsAreAside(s.c, p.idle);
    var (d, stage) := Begin(s.c, p);
    assert Sound(d.markers, stage, kind) by {
      hide HappenAll;
    }
    hide Inv, HappenAll, Aside, NeverReused, Opened;
    AsideInv(s, d, kind);
    Moves(s.(c := d), d, i, stage, kind);
  }

  /** Markers are only ever added to. */
  lemma DoGrows(s: System, name: string, a: Action)
    ensures s.c.markers <= Do(s, name, a).c.markers
  {
    var x := InstanceAt(s, a.i);
    var mine := s.c.(resolved := x.resolved);
    if a.Start? {
      EventsAreAside(mine, a.p.idle);
      hide HappenAll, Opened;
    } else if a.Move? {
      AdvanceGrows(mine, name, x.stage);
      hide Advance;
    }
  }

  lemma AdvanceGrows(c: Site, name: string, stage: Stage)
    ensures c.markers <= Advance(c, name, stage).0.markers
  {
    hide Store, Reservation, MayReserve, ReconcileRestore, CallSequence, ReconcileBackup, TakeBackup, HappenAll, Unanswered;
    match stage
    case Resting =>
    case Begun(l, p) =>
      if MayReserve(l, name) {
        StoreGrows(c, p.reserve, l.(st := Reservation(l.read, l.st, c.now)));
      } else {
        RestoreIsAside(c, name, l, p);
      }
    case RestoreReserved(l, p) => CallIsSequence(c, name, l, p);
    case RestoreOver(l, restoring, p) =>
      if WantsBackup(l) {
        StoreGrows(c, p.consume, l.(st := l.st.(backup := BackupStatus(l.read.backupAsk, "", "New"))));
      } else {
        BackupIsAside(c, l, p);
      }
    case BackupReserved(l, restoring, p) => TakingIsOne(c, l, p);
    case BackupOver(l, restoring, saving, p) => StoreGrows(c, p.store, l);
  }

  lemma StoreGrows(c: Site, t: Turn, l: Local)
    ensures c.markers <= Store(c, t, l).0.markers
  {
    StoreTells(c, t, l);
    hide HappenAll, Store;
  }

  lemma {:induction false} DoAllKeeps(s: System, name: string, actions: seq<Action>, kind: Kind)
    requires Inv(s, kind) && NeverReused(DoAll(s, name, actions).c.markers, kind)
    ensures Inv(DoAll(s, name, actions), kind)
  {
    hide Inv, Do, NeverReused;
    if actions == [] {
    } else {
      var before, a := actions[..|actions| - 1], actions[|actions| - 1];
      var b := DoAll(s, name, before);
      DoGrows(b, name, a);
      var after := DoAll(s, name, actions).c.markers;
      assert after == Do(b, name, a).c.markers;
      PrefixNeverReused(after, |b.c.markers|, kind);
      assert after[..|b.c.markers|] == b.c.markers;
      DoAllKeeps(s, name, before, kind);
      DoKeeps(b, name, a, kind);
    }
  }

  /** A site with a marker, and nothing answered yet. */
  predicate Unserved(c: Site) {
    c.markers != [] && forall e | e in c.log :: !Answers(e)
  }

  /** In every interleaving of any number of instances, however stale their copies, whatever
      writes fail or are lost and wherever they are killed: no request to restore, and none to
      back up, is answered twice, as long as no requester brings an old one back. */
  lemma AtMostOnce(c: Site, name: string, actions: seq<Action>, kind: Kind)
    requires Unserved(c)
    requires NeverReused(DoAll(System(c, map[]), name, actions).c.markers, kind)
    ensures Once(DoAll(System(c, map[]), name, actions).c.log, kind)
  {
    hide DoAll;
    FromNothing(System(c, map[]), name, actions, kind);
  }

  lemma FromNothing(s: System, name: string, actions: seq<Action>, kind: Kind)
    requires Unserved(s.c) && forall i | i in s.instances :: s.instances[i].stage == Resting
    requires NeverReused(DoAll(s, name, actions).c.markers, kind)
    ensures Once(DoAll(s, name, actions).c.log, kind)
  {
    DoAllGrows(s, name, actions);
    var after := DoAll(s, name, actions).c.markers;
    PrefixNeverReused(after, |s.c.markers|, kind);
    assert after[..|s.c.markers|] == s.c.markers;
    assert forall ask :: Answers(Answer(kind, ask));
    assert forall j | 0 <= j < |s.c.log| :: s.c.log[j] in s.c.log;
    assert Inv(s, kind) by {
      hide Answer, NeverReused, DoAll;
    }
    DoAllKeeps(s, name, actions, kind);
    hide DoAll;
  }

  lemma {:induction false} DoAllGrows(s: System, name: string, actions: seq<Action>)
    ensures s.c.markers <= DoAll(s, name, actions).c.markers
  {
    hide Do;
    if actions == [] {
    } else {
      DoAllGrows(s, name, actions[..|actions| - 1]);
      DoGrows(DoAll(s, name, actions[..|actions| - 1]), name, actions[|actions| - 1]);
    }
  }

  /** In particular in every run of passes. */
  lemma RunAnswersOnce(c: Site, name: string, ps: seq<Pass>, kind: Kind)
    requires Unserved(c) && NeverReused(Run(c, name, ps).markers, kind)
    ensures Once(Run(c, name, ps).log, kind)
  {
    var actions := RunIsSteps(c, name, ps);
    hide Run, DoAll;
    FromNothing(System(c, map[0 := Instance(Resting, c.resolved)]), name, actions, kind);
  }

  /** The sequence is called only on an acknowledged reservation of that very request, from
      the version the pass works on. */
  lemma CallFollowsReservation(c: Site, name: string, l: Local, p: Pass)
    requires Called(l.read.restoreAsk) !in c.log && Called(l.read.restoreAsk) in StartRestore(c, name, l, p).c.log
    requires WantsRestore(l)
    ensures MayReserve(l, name)
    ensures Store(c, p.reserve, l.(st := Reservation(l.read, l.st, c.now))).2 == Fine
  {
    StoreTells(c, p.reserve, l.(st := Reservation(l.read, l.st, c.now)));
    hide Store, Reservation, CallSequence, HappenAll, Set, Busy;
  }
}
