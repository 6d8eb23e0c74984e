/**
 One pass over a VCluster that is not being deleted: sleep, budget, provisioning,
 integrations, observation, and the statuses it stores.
 */
module LivePath {
  import opened Wrappers
  import opened Turns
  import opened Conditions
  import opened VClusters
  import opened Aggregation
  import opened Budget

  const GRACE_PERIOD := 7 * 24 * 3600
  const BUDGET_RETRY_INTERVAL := 300

  /** What Flux says of one of its objects. */
  datatype FluxState = NotRead | FluxReady | FluxUnknown | FluxOther

  predicate ExplicitlyNotReady(s: FluxState) {
    s == FluxOther
  }

  datatype Observation = Observation(
    failed: bool, timedOut: bool,
    helmRelease: FluxState, kustomization: FluxState, argoCD: FluxState,
    chartVersion: string, k8sVersion: string,
    protectionKnown: bool, protected: bool,
    rancherState: RancherState, rancherKnown: bool, rancherPaired: bool,
    backupInFlight: bool)

  /** The outcome of one integration step: the condition it writes, whether it
      failed, and when it wants to be looked at again (0: no opinion). */
  datatype Finding = Finding(status: ConditionStatus, reason: Reason, failed: bool, requeue: nat)

  /** Everything the outside answers during one pass. `rendered` is none when
      rendering failed, else the outcome of applying each object. */
  datatype Answers = Answers(
    now: int, suspends: bool, resumes: bool,
    budget: BudgetInputs, parse: Parse,
    rendered: Option<seq<bool>>,
    vault: Finding, keycloak: Finding, pairingFails: bool, pairingRequeue: nat,
    seen: Observation)

  // ---- observation ----

  function ProvisionedFrom(o: Observation): (ConditionStatus, Reason) {
    if o.failed then (ConditionUnknown, NoClusterClient)
    else if o.timedOut then (ConditionUnknown, ReadTimedOut)
    else if o.helmRelease == FluxReady && o.kustomization == FluxReady then (ConditionTrue, Healthy)
    else if ExplicitlyNotReady(o.helmRelease) || ExplicitlyNotReady(o.kustomization) then (ConditionFalse, FluxNotReady)
    else (ConditionUnknown, NotReadable)
  }

  function RancherPairedFrom(o: Observation): (ConditionStatus, Reason) {
    if o.failed then (ConditionUnknown, NotObserved)
    else
      match o.rancherState
      case RancherUnknown => (ConditionUnknown, LookupFailed)
      case Off => (ConditionFalse, RancherDisabled)
      case Paired => (ConditionTrue, RancherPairedActive)
      case ManuallyPaired => (ConditionTrue, RancherManuallyPaired)
      case Pairing => (ConditionFalse, RancherPairing)
      case Cleaning => (ConditionFalse, RancherCleaning)
      case OtherState => (ConditionFalse, RancherNotPaired)
  }

  function DeletionProtectedFrom(spec: Spec, o: Observation): (ConditionStatus, Reason) {
    var status := if spec.deletionProtection then ConditionTrue else ConditionFalse;
    if o.failed || !o.protectionKnown || o.timedOut then (status, SpecOnly)
    else if o.protected != spec.deletionProtection then (status, NamespaceDiverges)
    else (status, InSync)
  }

  /** What the cluster shows of ArgoCD refines a True, never a named failure. */
  function RefinedArgoCD(conds: seq<Condition>, o: Observation, now: int): seq<Condition> {
    if !HasStatus(conds, ArgoCDReady, ConditionTrue) then conds
    else if o.argoCD == FluxReady then Set(conds, ArgoCDReady, ConditionTrue, ArgoCDKustomizationReady, now)
    else if ExplicitlyNotReady(o.argoCD) then Set(conds, ArgoCDReady, ConditionFalse, ArgoCDKustomizationNotReady, now)
    else Set(conds, ArgoCDReady, ConditionUnknown, ArgoCDKustomizationNotReadable, now)
  }

  /** The three conditions every observation writes, whatever it could read. */
  function Told(spec: Spec, conds: seq<Condition>, o: Observation, now: int): seq<Condition> {
    var (ps, pr) := ProvisionedFrom(o);
    var (rs, rr) := RancherPairedFrom(o);
    var (ds, dr) := DeletionProtectedFrom(spec, o);
    Set(Set(Set(conds, ResourcesProvisioned, ps, pr, now), RancherPaired, rs, rr, now), DeletionProtected, ds, dr, now)
  }

  /** The status after an observation: what was not read keeps its last value. */
  function AfterObservation(spec: Spec, st: Status, o: Observation, now: int): Status {
    var told := Told(spec, st.conditions, o, now);
    if o.failed then st.(conditions := told)
    else
      st.(conditions := RefinedArgoCD(told, o, now),
          chartVersion := if o.chartVersion != "" then o.chartVersion else st.chartVersion,
          k8sVersion := if o.k8sVersion != "" then o.k8sVersion else st.k8sVersion,
          protectionEnabled := if o.protectionKnown && !o.timedOut then o.protected else st.protectionEnabled,
          rancherPaired := if o.rancherKnown then o.rancherPaired else st.rancherPaired)
  }

  /** An observation reaches three conditions and no other. Each turns True only on what was
      really read, but for the protection, which is what the object asks for. */
  lemma ToldMeans(spec: Spec, conds: seq<Condition>, o: Observation, now: int)
    ensures var told := Told(spec, conds, o, now);
            && (forall kind | kind !in {ResourcesProvisioned, RancherPaired, DeletionProtected} ::
                  Find(told, kind) == Find(conds, kind))
            && (HasStatus(told, ResourcesProvisioned, ConditionTrue) <==>
                  !o.failed && !o.timedOut && o.helmRelease == FluxReady && o.kustomization == FluxReady)
            && (HasStatus(told, ResourcesProvisioned, ConditionFalse) <==>
                  !o.failed && !o.timedOut && (o.helmRelease == FluxOther || o.kustomization == FluxOther))
            && (HasStatus(told, RancherPaired, ConditionTrue) <==> !o.failed && o.rancherState in {Paired, ManuallyPaired})
            && (HasStatus(told, DeletionProtected, ConditionTrue) <==> spec.deletionProtection)
  {
    var (ps, pr) := ProvisionedFrom(o);
    var (rs, rr) := RancherPairedFrom(o);
    var (ds, dr) := DeletionProtectedFrom(spec, o);
    assert ps == ConditionTrue <==> !o.failed && !o.timedOut && o.helmRelease == FluxReady && o.kustomization == FluxReady;
    var one := Set(conds, ResourcesProvisioned, ps, pr, now);
    var two := Set(one, RancherPaired, rs, rr, now);
    assert Told(spec, conds, o, now) == Set(two, DeletionProtected, ds, dr, now);
    hide Set, Find, Told;
  }

  /** Only a True is refined, and it stays True exactly when ArgoCD's own object is ready: a
      failure already named is never overwritten. */
  lemma RefinesOnlyTrue(conds: seq<Condition>, o: Observation, now: int)
    ensures var refined := RefinedArgoCD(conds, o, now);
            && (!HasStatus(conds, ArgoCDReady, ConditionTrue) ==> refined == conds)
            && (HasStatus(refined, ArgoCDReady, ConditionTrue) <==>
                  HasStatus(conds, ArgoCDReady, ConditionTrue) && o.argoCD == FluxReady)
            && (forall kind | kind != ArgoCDReady :: Find(refined, kind) == Find(conds, kind))
  {
    hide Set, Find;
  }

  method ApplyObservation(vc: VCluster, o: Observation, now: int)
    modifies vc
    ensures vc.View() == AfterObservation(vc.spec, old(vc.View()), o, now) && vc.spec == old(vc.spec)
  {
    TellConditions(vc, o, now);
    hide Set, Find, Told, RefinedArgoCD;
    if o.failed {
      return;
    }
    if o.chartVersion != "" {
      vc.chartVersion := o.chartVersion;
    }
    if o.k8sVersion != "" {
      vc.k8sVersion := o.k8sVersion;
    }
    RefineArgoCDReady(vc, o, now);
    if o.protectionKnown && !o.timedOut {
      vc.protectionEnabled := o.protected;
    }
    if o.rancherKnown {
      vc.rancherPaired := o.rancherPaired;
    }
  }

  method TellConditions(vc: VCluster, o: Observation, now: int)
    modifies vc`conditions
    ensures vc.conditions == Told(vc.spec, old(vc.conditions), o, now)
  {
    hide Set, Find, ProvisionedFrom, RancherPairedFrom, DeletionProtectedFrom;
    var (ps, pr) := ProvisionedFrom(o);
    vc.SetCond(ResourcesProvisioned, ps, pr, now);
    var (rs, rr) := RancherPairedFrom(o);
    vc.SetCond(RancherPaired, rs, rr, now);
    var (ds, dr) := DeletionProtectedFrom(vc.spec, o);
    vc.SetCond(DeletionProtected, ds, dr, now);
  }

  method RefineArgoCDReady(vc: VCluster, o: Observation, now: int)
    modifies vc`conditions
    ensures vc.conditions == RefinedArgoCD(old(vc.conditions), o, now)
  {
    hide Set, Find;
    var current := Find(vc.conditions, ArgoCDReady);
    if current == None || current.value.status != ConditionTrue {
      return;
    }
    if o.argoCD == FluxReady {
      vc.SetCond(ArgoCDReady, ConditionTrue, ArgoCDKustomizationReady, now);
    } else if ExplicitlyNotReady(o.argoCD) {
      vc.SetCond(ArgoCDReady, ConditionFalse, ArgoCDKustomizationNotReady, now);
    } else {
      vc.SetCond(ArgoCDReady, ConditionUnknown, ArgoCDKustomizationNotReadable, now);
    }
  }

  function Observed(spec: Spec, st: Status, o: Observation, now: int): Status {
    Aggregated(spec, AfterObservation(spec, st, o, now), now)
  }

  method ReconcileObservedState(vc: VCluster, o: Observation, now: int) returns (requeue: nat)
    modifies vc
    ensures vc.View() == Observed(vc.spec, old(vc.View()), o, now) && vc.spec == old(vc.spec)
    ensures requeue == ObserveInterval(vc.View(), o.rancherState, o.backupInFlight)
  {
    ApplyObservation(vc, o, now);
    AggregateVClusterStatus(vc, now);
    requeue := ObserveInterval(vc.View(), o.rancherState, o.backupInFlight);
  }

  // ---- sleep ----

  function Window(st: Status): Option<int> {
    if st.deletion.Some? then st.deletion.value.gracePeriodEndsAt else None
  }

  /** The status after putting to sleep or waking up, and whether that failed. */
  function AfterSuspend(spec: Spec, st: Status, a: Answers): (Status, bool) {
    if spec.suspend && st.phase != Suspended then
      if !a.suspends then (WithCond(st, Ready, ConditionFalse, SuspendFailed, a.now), true)
      else
        var ends := if Window(st).Some? then Window(st).value else a.now + GRACE_PERIOD;
        var stage := if st.deletion.Some? then st.deletion.value.stage else NoStage;
        (WithCond(st.(deletion := Some(DeletionStatus(Some(ends), stage)), phase := Suspended),
                  Ready, ConditionFalse, SuspendedReason, a.now), false)
    else if !spec.suspend && st.phase == Suspended then
      if !a.resumes then (WithCond(st, Ready, ConditionFalse, ResumeFailed, a.now), true)
      else (WithCond(st.(deletion := None, phase := Pending), Ready, ConditionFalse, Resuming, a.now), false)
    else (st, false)
  }

  method ReconcileSuspend(vc: VCluster, a: Answers) returns (failed: bool)
    modifies vc
    ensures (vc.View(), failed) == AfterSuspend(vc.spec, old(vc.View()), a) && vc.spec == old(vc.spec)
  {
    hide Set, Find;
    var asleep := vc.phase == Suspended;
    failed := false;
    if vc.spec.suspend && !asleep {
      if !a.suspends {
        vc.SetCond(Ready, ConditionFalse, SuspendFailed, a.now);
        return true;
      }
      if vc.deletion == None {
        vc.deletion := Some(DeletionStatus(None, NoStage));
      }
      if vc.deletion.value.gracePeriodEndsAt == None {
        vc.deletion := Some(vc.deletion.value.(gracePeriodEndsAt := Some(a.now + GRACE_PERIOD)));
      }
      vc.phase := Suspended;
      vc.SetCond(Ready, ConditionFalse, SuspendedReason, a.now);
    } else if !vc.spec.suspend && asleep {
      if !a.resumes {
        vc.SetCond(Ready, ConditionFalse, ResumeFailed, a.now);
        return true;
      }
      vc.deletion := None;
      vc.phase := Pending;
      vc.SetCond(Ready, ConditionFalse, Resuming, a.now);
    }
  }

  // ---- provisioning ----

  datatype Provisioned = Proceed | RefusedSpec | ProvisionFailed

  function Provision(spec: Spec, name: string, a: Answers): (Provisioned, Reason) {
    if spec.capi then (RefusedSpec, TypeNotImplemented)
    else if !ValidName(name) then (RefusedSpec, InvalidName)
    else if a.rendered == None then (ProvisionFailed, RenderFailed)
    else if false in a.rendered.value then (ProvisionFailed, ApplyFailed)
    else (Proceed, Applied)
  }

  function AfterProvisioning(spec: Spec, name: string, st: Status, a: Answers): Status {
    var (what, reason) := Provision(spec, name, a);
    match what
    case RefusedSpec => WithCond(st.(phase := PhaseFailed), ResourcesProvisioned, ConditionFalse, reason, a.now)
    case ProvisionFailed => WithCond(st, ResourcesProvisioned, ConditionFalse, reason, a.now)
    case Proceed =>
      WithCond(if st.phase == NoPhase || st.phase == PhaseFailed then st.(phase := Provisioning) else st,
               ResourcesProvisioned, ConditionTrue, reason, a.now)
  }

  method ReconcileProvisioning(vc: VCluster, a: Answers) returns (what: Provisioned)
    modifies vc`phase, vc`conditions
    ensures what == Provision(vc.spec, vc.name, a).0
    ensures vc.View() == AfterProvisioning(vc.spec, vc.name, old(vc.View()), a)
  {
    hide Set, Find;
    if vc.spec.capi {
      vc.phase := PhaseFailed;
      vc.SetCond(ResourcesProvisioned, ConditionFalse, TypeNotImplemented, a.now);
      return RefusedSpec;
    }
    if !ValidName(vc.name) {
      vc.phase := PhaseFailed;
      vc.SetCond(ResourcesProvisioned, ConditionFalse, InvalidName, a.now);
      return RefusedSpec;
    }
    if a.rendered == None {
      vc.SetCond(ResourcesProvisioned, ConditionFalse, RenderFailed, a.now);
      return ProvisionFailed;
    }
    for i := 0 to |a.rendered.value|
      invariant false !in a.rendered.value[..i]
      invariant vc.View() == old(vc.View())
    {
      if !a.rendered.value[i] {
        vc.SetCond(ResourcesProvisioned, ConditionFalse, ApplyFailed, a.now);
        return ProvisionFailed;
      }
    }
    if vc.phase == NoPhase || vc.phase == PhaseFailed {
      vc.phase := Provisioning;
    }
    vc.SetCond(ResourcesProvisioned, ConditionTrue, Applied, a.now);
    return Proceed;
  }

  // ---- integrations ----

  function AfterIntegrations(spec: Spec, st: Status, a: Answers): Status {
    var st' := WithCond(st, VaultConfigured, a.vault.status, a.vault.reason, a.now);
    if spec.argoCD then WithCond(st', ArgoCDReady, a.keycloak.status, a.keycloak.reason, a.now)
    else WithCond(st', ArgoCDReady, ConditionFalse, ArgoCDDisabled, a.now)
  }

  predicate IntegrationsFail(spec: Spec, a: Answers) {
    a.vault.failed || (spec.argoCD && a.keycloak.failed) || a.pairingFails
  }

  function IntegrationRequeue(spec: Spec, a: Answers): nat {
    Soonest(Soonest(a.vault.requeue, if spec.argoCD then a.keycloak.requeue else 0), a.pairingRequeue)
  }

  /** The three steps are independent: a failing one does not keep the others from running. */
  method ReconcileIntegrations(vc: VCluster, a: Answers) returns (requeue: nat, failed: bool)
    modifies vc`conditions
    ensures vc.View() == AfterIntegrations(vc.spec, old(vc.View()), a)
    ensures failed == IntegrationsFail(vc.spec, a) && requeue == IntegrationRequeue(vc.spec, a)
  {
    hide Set, Find;
    vc.SetCond(VaultConfigured, a.vault.status, a.vault.reason, a.now);
    failed, requeue := a.vault.failed, a.vault.requeue;
    if vc.spec.argoCD {
      vc.SetCond(ArgoCDReady, a.keycloak.status, a.keycloak.reason, a.now);
      failed := failed || a.keycloak.failed;
      requeue := Soonest(requeue, a.keycloak.requeue);
    } else {
      vc.SetCond(ArgoCDReady, ConditionFalse, ArgoCDDisabled, a.now);
    }
    failed := failed || a.pairingFails;
    requeue := Soonest(requeue, a.pairingRequeue);
  }

  // ---- the whole pass ----

  /** `mid` is the status provisioning stores by itself before reporting a failure. */
  datatype Outcome = Outcome(status: Status, mid: Option<Status>, failed: bool, requeue: nat)

  function Settled(spec: Spec, st: Status, a: Answers): Outcome {
    var seen := Observed(spec, st, a.seen, a.now);
    Outcome(seen, None, false, ObserveInterval(seen, a.seen.rancherState, a.seen.backupInFlight))
  }

  function AfterAdmission(spec: Spec, name: string, st: Status, a: Answers): Outcome {
    var st1 := AfterProvisioning(spec, name, st, a);
    match Provision(spec, name, a).0
    case ProvisionFailed => Outcome(st1, Some(st1), true, 0)
    case RefusedSpec => Outcome(Aggregated(spec, st1, a.now), None, false, 0)
    case Proceed =>
      var st2 := AfterIntegrations(spec, st1, a);
      if IntegrationsFail(spec, a) then Outcome(st2, None, true, 0)
      else
        var end := Settled(spec, st2, a);
        end.(requeue := Soonest(IntegrationRequeue(spec, a), end.requeue))
  }

  function AllSteps(spec: Spec, name: string, st: Status, a: Answers): Outcome {
    var (slept, failed) := AfterSuspend(spec, st, a);
    if failed then Outcome(slept, None, true, 0)
    else if slept.phase == Suspended then Outcome(slept, None, false, 0)
    else
      var v := Checked(spec, a.budget, a.parse);
      var judged := Recorded(slept, v, a.now);
      match v
      case Failure => Outcome(judged, None, true, 0)
      case Refused(_) =>
        if judged.chartVersion != "" then Settled(spec, judged, a)
        else Outcome(Aggregated(spec, judged, a.now), None, false, BUDGET_RETRY_INTERVAL)
      case _ => AfterAdmission(spec, name, judged, a)
  }

  /** The object as the API server keeps it: every status ever stored, the last one current. */
  class Server {
    var history: seq<Status>
    var finalizer: bool

    ghost predicate Valid()
      reads this
    {
      history != []
    }

    function Current(): Status
      requires history != []
      reads this
    {
      history[|history| - 1]
    }

    constructor (st: Status)
      ensures Valid() && history == [st] && !finalizer
    {
      history, finalizer := [st], false;
    }

    /** A status update; `stored` tells whether it gets through. */
    method UpdateStatus(vc: VCluster, stored: bool)
      modifies this`history
      ensures history == old(history) + if stored then [vc.View()] else []
    {
      if stored {
        history := history + [vc.View()];
      }
    }
  }

  /** One pass: the spec it reads, whether the object is in the operator's own
      namespace, what the outside answers, and which writes get through. A write made
      from a stale copy does not. */
  datatype Pass = Pass(spec: Spec, atHome: bool, answers: Answers,
                       finalizerStored: bool, midStored: bool, finalStored: bool)

  /** The statuses a pass stores. */
  function Persisted(name: string, finalizer: bool, st: Status, p: Pass): seq<Status> {
    if !ValidName(name) || !p.atHome then
      if p.finalStored then [WithCond(st, Accepted, ConditionFalse, NamespaceMismatch, p.answers.now)] else []
    else if !finalizer && !p.finalizerStored then []
    else
      var o := AllSteps(p.spec, name, st, p.answers);
      (if o.mid.Some? && p.midStored then [o.mid.value] else []) + (if p.finalStored then [o.status] else [])
  }

  class VClusterReconciler {
    const server: Server
    const name: string

    constructor (server: Server, name: string)
      ensures this.server == server && this.name == name
    {
      this.server := server;
      this.name := name;
    }

    method ReconcileAll(vc: VCluster, p: Pass) returns (requeue: nat, failed: bool)
      requires vc.spec == p.spec && vc.name == name
      modifies vc, server`history
      ensures var o := AllSteps(p.spec, name, old(vc.View()), p.answers);
              && vc.View() == o.status && failed == o.failed && requeue == o.requeue
              && server.history == old(server.history) + if o.mid.Some? && p.midStored then [o.mid.value] else []
    {
      hide Set, Find, Aggregated, AfterObservation, Checked, WithCond;
      var a := p.answers;
      failed := ReconcileSuspend(vc, a);
      if failed {
        return 0, true;
      }
      if vc.phase == Suspended {
        return 0, false;
      }
      var verdict := CheckResourceBudget(vc, a.budget, a.parse, a.now);
      if verdict == Failure {
        return 0, true;
      }
      if verdict.Refused? {
        if vc.chartVersion != "" {
          requeue := ReconcileObservedState(vc, a.seen, a.now);
          return requeue, false;
        }
        AggregateVClusterStatus(vc, a.now);
        return BUDGET_RETRY_INTERVAL, false;
      }
      var what := ReconcileProvisioning(vc, a);
      if what == ProvisionFailed {
        server.UpdateStatus(vc, p.midStored);
        return 0, true;
      }
      if what == RefusedSpec {
        AggregateVClusterStatus(vc, a.now);
        return 0, false;
      }
      var soon, failing := ReconcileIntegrations(vc, a);
      if failing {
        return 0, true;
      }
      requeue := ReconcileObservedState(vc, a.seen, a.now);
      return Soonest(soon, requeue), false;
    }

    /** The status is stored on every path, failures included. */
    method Reconcile(p: Pass) returns (requeue: nat, failed: bool)
      requires server.Valid()
      modifies server
      ensures server.Valid()
      ensures server.history == old(server.history) + Persisted(name, old(server.finalizer), old(server.Current()), p)
      ensures server.finalizer == (old(server.finalizer) || (ValidName(name) && p.atHome && p.finalizerStored))
    {
      hide Set, Find, AllSteps, WithCond;
      var vc := new VCluster(name, p.spec, server.Current());
      if !ValidName(name) || !p.atHome {
        vc.SetCond(Accepted, ConditionFalse, NamespaceMismatch, p.answers.now);
        assert vc.View() == WithCond(old(server.Current()), Accepted, ConditionFalse, NamespaceMismatch, p.answers.now) by {
          Misplaced(old(server.Current()), p.answers.now);
        }
        server.UpdateStatus(vc, p.finalStored);
        return 0, !p.finalStored;
      }
      if !server.finalizer {
        if !p.finalizerStored {
          return 0, true;
        }
        server.finalizer := true;
      }
      requeue, failed := ReconcileAll(vc, p);
      server.UpdateStatus(vc, p.finalStored);
      if failed || !p.finalStored {
        return 0, true;
      }
    }
  }

  lemma Misplaced(st: Status, now: int)
    ensures WithCond(st, Accepted, ConditionFalse, NamespaceMismatch, now) ==
            st.(conditions := Set(st.conditions, Accepted, ConditionFalse, NamespaceMismatch, now))
  {
  }
}
