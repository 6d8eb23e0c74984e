/**
 The Ready condition and the one-word phase, aggregated from the conditions that
 say whether a vcluster works.
 */
module Aggregation {
  import opened Wrappers
  import opened Conditions
  import opened VClusters

  /** The conditions Ready aggregates, in the order their message deserves to win. */
  function BlockingConditions(spec: Spec, st: Status): seq<CondType> {
    (if st.chartVersion == "" then [BudgetOK] else [])
    + [ResourcesProvisioned, VaultConfigured]
    + (if spec.argoCD then [ArgoCDReady] else [])
  }

  /** The first condition of `types` with a given status. */
  function FirstWith(conds: seq<Condition>, types: seq<CondType>, status: ConditionStatus): Option<CondType> {
    if types == [] then None
    else if HasStatus(conds, types[0], status) then Some(types[0])
    else FirstWith(conds, types[1..], status)
  }

  /** The phase of a vcluster that is not Ready. */
  function PhaseFor(st: Status): Phase {
    if HasStatus(st.conditions, BudgetOK, ConditionFalse) && st.chartVersion == "" then PhaseFailed
    else if st.chartVersion == "" then Provisioning
    else Degraded
  }

  function Aggregated(spec: Spec, st: Status, now: int): Status {
    var types := BlockingConditions(spec, st);
    match FirstWith(st.conditions, types, ConditionFalse)
    case Some(t) => NotReady(st, ConditionFalse, NotMet(t), now)
    case None =>
      if Find(st.conditions, ResourcesProvisioned) == None then NotReady(st, ConditionUnknown, NotObservedYet, now)
      else
        match FirstWith(st.conditions, types, ConditionUnknown)
        case Some(t) => NotReady(st, ConditionUnknown, UnknownOf(t), now)
        case None => WithCond(st, Ready, ConditionTrue, AllChecksPassed, now).(phase := PhaseReady)
  }

  function NotReady(st: Status, status: ConditionStatus, reason: Reason, now: int): Status {
    var st' := WithCond(st, Ready, status, reason, now);
    st'.(phase := PhaseFor(st'))
  }

  method FirstFalseBlocking(vc: VCluster) returns (found: Option<Condition>)
    ensures found == match FirstWith(vc.conditions, BlockingConditions(vc.spec, vc.View()), ConditionFalse)
                     case None => None
                     case Some(t) => Find(vc.conditions, t)
    ensures found.Some? ==>
              FirstWith(vc.conditions, BlockingConditions(vc.spec, vc.View()), ConditionFalse) == Some(found.value.kind)
    ensures found == None ==> FirstWith(vc.conditions, BlockingConditions(vc.spec, vc.View()), ConditionFalse) == None
  {
    var types := BlockingConditions(vc.spec, vc.View());
    for i := 0 to |types|
      invariant FirstWith(vc.conditions, types, ConditionFalse) == FirstWith(vc.conditions, types[i..], ConditionFalse)
    {
      var c := Find(vc.conditions, types[i]);
      FindIsMember(vc.conditions, types[i]);
      assert types[i..][1..] == types[i + 1..];
      if c.Some? && c.value.status == ConditionFalse {
        return c;
      }
    }
    return None;
  }

  method AggregateVClusterStatus(vc: VCluster, now: int)
    modifies vc`conditions, vc`phase
    ensures vc.View() == Aggregated(vc.spec, old(vc.View()), now)
  {
    ghost var st := vc.View();
    var types := BlockingConditions(vc.spec, vc.View());
    var c := FirstFalseBlocking(vc);
    hide Find, Set, FirstWith;
    if c.Some? {
      vc.SetCond(Ready, ConditionFalse, NotMet(c.value.kind), now);
      vc.phase := PhaseFor(vc.View());
      return;
    }
    if Find(vc.conditions, ResourcesProvisioned) == None {
      vc.SetCond(Ready, ConditionUnknown, NotObservedYet, now);
      vc.phase := PhaseFor(vc.View());
      return;
    }
    var unknown := FirstUnknown(vc.conditions, types);
    if unknown.Some? {
      vc.SetCond(Ready, ConditionUnknown, UnknownOf(unknown.value), now);
      vc.phase := PhaseFor(vc.View());
      return;
    }
    vc.SetCond(Ready, ConditionTrue, AllChecksPassed, now);
    vc.phase := PhaseReady;
  }

  method FirstUnknown(conds: seq<Condition>, types: seq<CondType>) returns (unknown: Option<CondType>)
    ensures unknown == FirstWith(conds, types, ConditionUnknown)
  {
    unknown := None;
    for i := 0 to |types|
      invariant unknown == None ==>
                  FirstWith(conds, types, ConditionUnknown) == FirstWith(conds, types[i..], ConditionUnknown)
      invariant unknown.Some? ==> FirstWith(conds, types, ConditionUnknown) == unknown
    {
      assert types[i..][1..] == types[i + 1..];
      if HasStatus(conds, types[i], ConditionUnknown) && unknown == None {
        unknown := Some(types[i]);
      }
    }
  }

  // ---- the aggregation is the three-valued conjunction ----

  ghost predicate Blocking(t: CondType, spec: Spec, st: Status) {
    || t == ResourcesProvisioned
    || t == VaultConfigured
    || (t == BudgetOK && st.chartVersion == "")
    || (t == ArgoCDReady && spec.argoCD)
  }

  /** What a blocking condition contributes: an absent one nothing, except that
      without ResourcesProvisioned nothing is known. */
  function Contribution(conds: seq<Condition>, t: CondType): ConditionStatus {
    match Find(conds, t)
    case Some(c) => c.status
    case None => if t == ResourcesProvisioned then ConditionUnknown else ConditionTrue
  }

  /** False beats Unknown, Unknown beats True. */
  ghost function Conjunction(spec: Spec, st: Status): ConditionStatus {
    if exists t :: Blocking(t, spec, st) && Contribution(st.conditions, t) == ConditionFalse then ConditionFalse
    else if exists t :: Blocking(t, spec, st) && Contribution(st.conditions, t) == ConditionUnknown then ConditionUnknown
    else ConditionTrue
  }

  lemma {:induction false} FirstWithIsExistence(conds: seq<Condition>, types: seq<CondType>, status: ConditionStatus)
    ensures FirstWith(conds, types, status).Some? <==> exists t :: t in types && HasStatus(conds, t, status)
    ensures FirstWith(conds, types, status).Some? ==>
              FirstWith(conds, types, status).value in types
              && HasStatus(conds, FirstWith(conds, types, status).value, status)
  {
    hide HasStatus;
    if types == [] {
    } else {
      FirstWithIsExistence(conds, types[1..], status);
      assert types == [types[0]] + types[1..];
    }
  }

  lemma BlockingAreListed(spec: Spec, st: Status, t: CondType)
    ensures t in BlockingConditions(spec, st) <==> Blocking(t, spec, st)
  {
  }

  lemma ConjunctionByLists(spec: Spec, st: Status)
    ensures var types := BlockingConditions(spec, st);
            Conjunction(spec, st) ==
            if FirstWith(st.conditions, types, ConditionFalse).Some? then ConditionFalse
            else if Find(st.conditions, ResourcesProvisioned) == None
                    || FirstWith(st.conditions, types, ConditionUnknown).Some? then ConditionUnknown
            else ConditionTrue
  {
    var types := BlockingConditions(spec, st);
    FirstWithIsExistence(st.conditions, types, ConditionFalse);
    FirstWithIsExistence(st.conditions, types, ConditionUnknown);
    forall t
      ensures t in types <==> Blocking(t, spec, st)
    {
      BlockingAreListed(spec, st, t);
    }
    hide FirstWith, Find, BlockingConditions, Blocking;
    assert forall t :: HasStatus(st.conditions, t, ConditionFalse) <==> Contribution(st.conditions, t) == ConditionFalse;
    assert forall t :: HasStatus(st.conditions, t, ConditionUnknown) ==> Contribution(st.conditions, t) == ConditionUnknown;
    assert ResourcesProvisioned in types by {
      BlockingAreListed(spec, st, ResourcesProvisioned);
      BlocksAlways(spec, st);
    }
    assert Find(st.conditions, ResourcesProvisioned) == None ==>
        Contribution(st.conditions, ResourcesProvisioned) == ConditionUnknown;
  }

  lemma BlocksAlways(spec: Spec, st: Status)
    ensures Blocking(ResourcesProvisioned, spec, st)
  {
  }

  /** Ready is exactly the conjunction of the blocking conditions, the phase is
      Ready exactly with it, and nothing else in the status changes. */
  lemma AggregateIsConjunction(spec: Spec, st: Status, now: int)
    ensures var r := Aggregated(spec, st, now);
            && HasStatus(r.conditions, Ready, Conjunction(spec, st))
            && (r.phase == PhaseReady <==> Conjunction(spec, st) == ConditionTrue)
            && (forall k | k != Ready :: Find(r.conditions, k) == Find(st.conditions, k))
            && r == st.(conditions := r.conditions, phase := r.phase)
  {
    ConjunctionByLists(spec, st);
    hide Find, FirstWith, BlockingConditions, Conjunction;
  }

  /** The reason Ready gives is a blocking condition with that very status. */
  lemma ReadyNamesItsCause(spec: Spec, st: Status, now: int)
    ensures match Find(Aggregated(spec, st, now).conditions, Ready).value.reason
            case NotMet(t) => Blocking(t, spec, st) && HasStatus(st.conditions, t, ConditionFalse)
            case UnknownOf(t) => Blocking(t, spec, st) && HasStatus(st.conditions, t, ConditionUnknown)
            case NotObservedYet => Find(st.conditions, ResourcesProvisioned) == None
            case AllChecksPassed => Conjunction(spec, st) == ConditionTrue
            case _ => false
  {
    ConjunctionByLists(spec, st);
    var types := BlockingConditions(spec, st);
    FirstWithIsExistence(st.conditions, types, ConditionFalse);
    FirstWithIsExistence(st.conditions, types, ConditionUnknown);
    forall t
      ensures t in types <==> Blocking(t, spec, st)
    {
      BlockingAreListed(spec, st, t);
    }
    hide Find, FirstWith, BlockingConditions, Conjunction, Blocking;
  }

  lemma AgreeingNotReady(a: Status, b: Status, status: ConditionStatus, reason: Reason, now: int)
    requires a == b.(conditions := a.conditions)
    requires forall k :: Find(a.conditions, k) == Find(b.conditions, k)
    ensures var x, y := NotReady(a, status, reason, now), NotReady(b, status, reason, now);
            Find(x.conditions, Ready) == Find(y.conditions, Ready) && x.phase == y.phase
  {
    hide Find, Set;
    var xs, ys := Set(a.conditions, Ready, status, reason, now), Set(b.conditions, Ready, status, reason, now);
    assert Find(xs, BudgetOK) == Find(a.conditions, BudgetOK) && Find(ys, BudgetOK) == Find(b.conditions, BudgetOK);
  }

  lemma AgreeingLists(spec: Spec, a: Status, b: Status, now: int)
    requires a == b.(conditions := a.conditions)
    requires forall k :: Find(a.conditions, k) == Find(b.conditions, k)
    ensures var x, y := Aggregated(spec, a, now), Aggregated(spec, b, now);
            Find(x.conditions, Ready) == Find(y.conditions, Ready) && x.phase == y.phase
  {
    hide Find, Set, FirstWith, NotReady;
    var types := BlockingConditions(spec, a);
    SameFirst(a.conditions, b.conditions, types, ConditionFalse);
    SameFirst(a.conditions, b.conditions, types, ConditionUnknown);
    var f, u := FirstWith(a.conditions, types, ConditionFalse), FirstWith(a.conditions, types, ConditionUnknown);
    if f.Some? {
      AgreeingNotReady(a, b, ConditionFalse, NotMet(f.value), now);
    }
    if u.Some? {
      AgreeingNotReady(a, b, ConditionUnknown, UnknownOf(u.value), now);
    }
    AgreeingNotReady(a, b, ConditionUnknown, NotObservedYet, now);
    assert BlockingConditions(spec, b) == types;
    hide BlockingConditions;
  }

  /** Neither Ready nor the phase depends on the order conditions are stored in. */
  lemma StoredOrderDoesNotMatter(spec: Spec, a: Status, b: Status, now: int)
    requires a == b.(conditions := a.conditions)
    requires Keyed(a.conditions) && Keyed(b.conditions) && multiset(a.conditions) == multiset(b.conditions)
    ensures var x, y := Aggregated(spec, a, now), Aggregated(spec, b, now);
            Find(x.conditions, Ready) == Find(y.conditions, Ready) && x.phase == y.phase
  {
    hide Find, Keyed, Aggregated;
    forall k: CondType
      ensures Find(a.conditions, k) == Find(b.conditions, k)
    {
      OrderDoesNotMatter(a.conditions, b.conditions, k);
    }
    AgreeingLists(spec, a, b, now);
  }

  lemma {:induction false} SameFirst(xs: seq<Condition>, ys: seq<Condition>, types: seq<CondType>, status: ConditionStatus)
    requires forall k :: Find(xs, k) == Find(ys, k)
    ensures FirstWith(xs, types, status) == FirstWith(ys, types, status)
  {
    hide Find;
    if types == [] {
    } else {
      SameFirst(xs, ys, types[1..], status);
    }
  }

  // ---- how often to look again ----

  const OBSERVE_INTERVAL_MOVING := 30
  const OBSERVE_INTERVAL_SETTLED := 300

  datatype RancherState = Off | Paired | Pairing | ManuallyPaired | Cleaning | RancherUnknown | OtherState

  function ObserveInterval(st: Status, rancher: RancherState, backupInFlight: bool): (seconds: int)
    ensures seconds == 300 <==> st.phase == PhaseReady && rancher != Pairing && rancher != Cleaning && !backupInFlight
    ensures seconds == 300 || seconds == 30
  {
    if st.phase != PhaseReady then OBSERVE_INTERVAL_MOVING
    else if rancher == Pairing || rancher == Cleaning then OBSERVE_INTERVAL_MOVING
    else if backupInFlight then OBSERVE_INTERVAL_MOVING
    else OBSERVE_INTERVAL_SETTLED
  }
}
