/**
 What one pass over a live VCluster comes to, told from what it was given: when it sleeps, when
 it errs, what provisioning and the integrations leave in the status.
 */
module LiveTells {
  import opened Wrappers
  import opened Turns
  import opened Conditions
  import opened VClusters
  import opened Aggregation
  import opened Budget
  import opened LivePath
  import opened LiveRuns

  predicate Shows(st: Status, kind: CondType, status: ConditionStatus, reason: Reason) {
    HasStatus(st.conditions, kind, status) && HasReason(st.conditions, kind, reason)
  }

  // ---- sleep ----

  /** What putting to sleep or waking up comes to. */
  predicate EndsAsleep(spec: Spec, st: Status, a: Answers) {
    if st.phase == Suspended then spec.suspend || !a.resumes else spec.suspend && a.suspends
  }

  /** After a pass the vcluster sleeps exactly when it is asked to and could be put to sleep, or
      slept and is asked to or could not be woken up. */
  lemma SleepsExactly(spec: Spec, name: string, st: Status, a: Answers)
    ensures AllSteps(spec, name, st, a).status.phase == Suspended <==> EndsAsleep(spec, st, a)
  {
    SleepTells(spec, st, a);
    PassEnds(spec, name, st, a);
    var slept := AfterSuspend(spec, st, a).0;
    if slept.phase != Suspended && !AfterSuspend(spec, st, a).1 {
      var v := Checked(spec, a.budget, a.parse);
      var judged := Recorded(slept, v, a.now);
      AwakeRecorded(slept, v, a.now);
      AwakeSettled(spec, judged, a);
      AwakeAggregated(spec, judged, a.now);
      StaysAwake(spec, name, judged, a);
    }
    hide *;
  }

  /** Where a pass ends. */
  lemma PassEnds(spec: Spec, name: string, st: Status, a: Answers)
    ensures var (slept, failed) := AfterSuspend(spec, st, a);
            var judged := Recorded(slept, Checked(spec, a.budget, a.parse), a.now);
            var end := AllSteps(spec, name, st, a).status;
            if failed || slept.phase == Suspended then end == slept
            else end in {judged, Settled(spec, judged, a).status, Aggregated(spec, judged, a.now),
                         AfterAdmission(spec, name, judged, a).status}
  {
    hide AfterSuspend, Checked, Recorded, Settled, Aggregated, AfterAdmission;
  }

  lemma AwakeRecorded(st: Status, v: Verdict, now: int)
    requires st.phase != Suspended
    ensures Recorded(st, v, now).phase != Suspended
  {
    hide Set, Find;
  }

  lemma AwakeAggregated(spec: Spec, st: Status, now: int)
    ensures Aggregated(spec, st, now).phase != Suspended
  {
    AggregatedIsSound(spec, st, now);
    hide Aggregated, Sound;
  }

  lemma AwakeSettled(spec: Spec, st: Status, a: Answers)
    ensures Settled(spec, st, a).status.phase != Suspended
  {
    ObservedIsSound(spec, st, a);
    hide Observed, Sound;
  }

  /** Falling asleep opens a window of seven days, unless one is open; waking up closes it; and
      neither is done when the cluster does not follow, which is told and is an error. */
  lemma SleepTells(spec: Spec, st: Status, a: Answers)
    ensures var (slept, failed) := AfterSuspend(spec, st, a);
            && (slept.phase == Suspended <==> EndsAsleep(spec, st, a))
            && (failed <==> if st.phase == Suspended then !spec.suspend && !a.resumes else spec.suspend && !a.suspends)
            && (st.phase != Suspended && slept.phase == Suspended ==>
                  && Window(slept) == Some(if Window(st).Some? then Window(st).value else a.now + 604800)
                  && Shows(slept, Ready, ConditionFalse, SuspendedReason))
            && (st.phase == Suspended && slept.phase != Suspended ==>
                  slept.phase == Pending && Window(slept) == None && Shows(slept, Ready, ConditionFalse, Resuming))
            && (failed ==> slept.phase == st.phase && slept.deletion == st.deletion
                           && Shows(slept, Ready, ConditionFalse, if spec.suspend then SuspendFailed else ResumeFailed))
  {
    hide Set, Find;
  }

  // ---- provisioning ----

  /** Provisioning goes on exactly when the object is of the implemented type, its name is valid,
      its objects were rendered, and every one of them was applied; and only then is it told
      applied. A first install shows as provisioning. */
  lemma ProvisionsExactly(spec: Spec, name: string, st: Status, a: Answers)
    ensures var what := Provision(spec, name, a).0;
            var after := AfterProvisioning(spec, name, st, a);
            && (what == Proceed <==> !spec.capi && ValidName(name) && a.rendered.Some?
                                     && forall i | 0 <= i < |a.rendered.value| :: a.rendered.value[i])
            && (what == RefusedSpec <==> spec.capi || !ValidName(name))
            && (what == Proceed <==> Shows(after, ResourcesProvisioned, ConditionTrue, Applied))
            && (what == RefusedSpec ==> Shows(after, ResourcesProvisioned, ConditionFalse,
                                              if spec.capi then TypeNotImplemented else InvalidName))
            && (what == ProvisionFailed ==> Shows(after, ResourcesProvisioned, ConditionFalse,
                                                  if a.rendered == None then RenderFailed else ApplyFailed)
                                            && after.phase == st.phase)
            && (what == Proceed ==> after.phase == (if st.phase in {NoPhase, PhaseFailed} then Provisioning else st.phase))
  {
    hide Set, Find, ValidName;
    if a.rendered.Some? {
      assert (forall i | 0 <= i < |a.rendered.value| :: a.rendered.value[i]) <==> false !in a.rendered.value;
    }
  }

  /** The pass comes to provisioning. */
  predicate ReachesProvisioning(spec: Spec, st: Status, a: Answers) {
    !AfterSuspend(spec, st, a).1 && AfterSuspend(spec, st, a).0.phase != Suspended
    && !Checked(spec, a.budget, a.parse).Refused? && Checked(spec, a.budget, a.parse) != Failure
  }

  /** A refused spec is told in its condition, but the phase it sets does not last: aggregating
      writes over it, and it is stored as failed exactly when a budget refusal is still standing,
      which takes an operator without a budget, and a vcluster that never ran. */
  lemma RefusedSpecIsStoredFailedExactly(spec: Spec, name: string, st: Status, a: Answers)
    requires ReachesProvisioning(spec, st, a) && (spec.capi || !ValidName(name))
    ensures var o := AllSteps(spec, name, st, a);
            && Shows(o.status, ResourcesProvisioned, ConditionFalse, if spec.capi then TypeNotImplemented else InvalidName)
            && (o.status.phase == PhaseFailed <==>
                  !a.budget.wired && HasStatus(st.conditions, BudgetOK, ConditionFalse) && st.chartVersion == "")
            && o.status.phase in {PhaseFailed, Provisioning, Degraded}
            && !o.failed && o.requeue == 0
  {
    var slept := AfterSuspend(spec, st, a).0;
    var v := Checked(spec, a.budget, a.parse);
    var judged := Recorded(slept, v, a.now);
    var after := AfterProvisioning(spec, name, judged, a);
    SleptKeeps(spec, st, a);
    JudgedTells(spec, slept, a);
    ProvisionsExactly(spec, name, judged, a);
    ProvisioningKeeps(spec, name, judged, a);
    assert AllSteps(spec, name, st, a) == Outcome(Aggregated(spec, after, a.now), None, false, 0) by {
      hide AfterSuspend, Checked, Recorded, Provision, AfterProvisioning, Aggregated, Settled;
    }
    AggregateIsConjunction(spec, after, a.now);
    AggregatedPhase(spec, after, a.now);
    hide AllSteps, AfterSuspend, Checked, Recorded, AfterProvisioning, Provision, Aggregated, Find, Set, ValidName;
    assert Blocking(ResourcesProvisioned, spec, after) && Contribution(after.conditions, ResourcesProvisioned) == ConditionFalse;
  }

  /** A vcluster the budget refuses before it ever ran is stored failed, told why, and looked at
      again in five minutes; nothing else is told of it. */
  lemma BudgetRefusalIsStored(spec: Spec, name: string, st: Status, a: Answers)
    requires !AfterSuspend(spec, st, a).1 && AfterSuspend(spec, st, a).0.phase != Suspended
    requires Checked(spec, a.budget, a.parse).Refused? && st.chartVersion == ""
    ensures var o := AllSteps(spec, name, st, a);
            && o.status.phase == PhaseFailed && o.requeue == 300 && !o.failed
            && Shows(o.status, BudgetOK, ConditionFalse, Checked(spec, a.budget, a.parse).reason)
            && (forall k | k !in {BudgetOK, Ready} :: Find(o.status.conditions, k) == Find(st.conditions, k))
  {
    var slept := AfterSuspend(spec, st, a).0;
    var v := Checked(spec, a.budget, a.parse);
    var judged := Recorded(slept, v, a.now);
    SleptKeeps(spec, st, a);
    RefusalIsRecorded(slept, v, a.now);
    AggregateIsConjunction(spec, judged, a.now);
    AggregatedPhase(spec, judged, a.now);
    assert AllSteps(spec, name, st, a) == Outcome(Aggregated(spec, judged, a.now), None, false, 300) by {
      hide AfterSuspend, Checked, Aggregated, Settled, Set, Find;
    }
    hide AllSteps, AfterSuspend, Checked, Recorded, Aggregated, Find, Set;
    assert Blocking(BudgetOK, spec, judged) && Contribution(judged.conditions, BudgetOK) == ConditionFalse;
  }

  lemma RefusalIsRecorded(st: Status, v: Verdict, now: int)
    requires v.Refused?
    ensures var judged := Recorded(st, v, now);
            && Shows(judged, BudgetOK, ConditionFalse, v.reason) && judged.chartVersion == st.chartVersion
            && forall k | k != BudgetOK :: Find(judged.conditions, k) == Find(st.conditions, k)
  {
    hide Set, Find;
  }

  lemma SleptKeeps(spec: Spec, st: Status, a: Answers)
    ensures var slept := AfterSuspend(spec, st, a).0;
            && slept.chartVersion == st.chartVersion
            && forall k | k != Ready :: Find(slept.conditions, k) == Find(st.conditions, k)
  {
    hide Set, Find;
  }

  lemma ProvisioningKeeps(spec: Spec, name: string, st: Status, a: Answers)
    ensures var after := AfterProvisioning(spec, name, st, a);
            after.chartVersion == st.chartVersion && Find(after.conditions, BudgetOK) == Find(st.conditions, BudgetOK)
  {
    hide Set, Find, ValidName;
  }

  /** A verdict that lets the pass go on leaves no refusal of its own. */
  lemma JudgedTells(spec: Spec, st: Status, a: Answers)
    ensures var v := Checked(spec, a.budget, a.parse);
            var judged := Recorded(st, v, a.now);
            && judged.chartVersion == st.chartVersion
            && (!v.Refused? && v != Failure ==>
                  (HasStatus(judged.conditions, BudgetOK, ConditionFalse) <==>
                     !a.budget.wired && HasStatus(st.conditions, BudgetOK, ConditionFalse)))
  {
    hide Set, Find, Charged, FirstMisfit;
  }

  /** The phase of a vcluster that is not ready: failed when the budget refused it before it ever
      ran, provisioning while it never ran, and degraded since. */
  lemma AggregatedPhase(spec: Spec, st: Status, now: int)
    ensures var r := Aggregated(spec, st, now);
            r.phase == if Conjunction(spec, st) == ConditionTrue then PhaseReady
                       else if st.chartVersion != "" then Degraded
                       else if HasStatus(st.conditions, BudgetOK, ConditionFalse) then PhaseFailed
                       else Provisioning
  {
    AggregateIsConjunction(spec, st, now);
    hide Find, Set, FirstWith, BlockingConditions, Conjunction;
  }

  // ---- errors ----

  /** A pass errs exactly when sleep or wake-up fails, or, awake, when the check cannot be made,
      an object is not rendered or applied, or an integration fails. */
  lemma FailsExactly(spec: Spec, name: string, st: Status, a: Answers)
    ensures var (slept, failed) := AfterSuspend(spec, st, a);
            var v := Checked(spec, a.budget, a.parse);
            AllSteps(spec, name, st, a).failed <==>
            failed || (slept.phase != Suspended
                       && (v == Failure || (!v.Refused?
                                            && (Provision(spec, name, a).0 == ProvisionFailed
                                                || (Provision(spec, name, a).0 == Proceed && IntegrationsFail(spec, a))))))
  {
    hide AfterSuspend, Checked, Recorded, Provision, AfterProvisioning, Aggregated, Observed, AfterIntegrations, IntegrationsFail;
  }

  // ---- integrations ----

  /** Each integration tells its own condition, whatever becomes of the others; they fail as soon
      as one does; and the next look is the soonest one any of them wants. */
  lemma IntegrationsTell(spec: Spec, st: Status, a: Answers)
    ensures var after := AfterIntegrations(spec, st, a);
            var r := IntegrationRequeue(spec, a);
            var wanted := {a.vault.requeue, a.pairingRequeue} + if spec.argoCD then {a.keycloak.requeue} else {};
            && Shows(after, VaultConfigured, a.vault.status, a.vault.reason)
            && (if spec.argoCD then Shows(after, ArgoCDReady, a.keycloak.status, a.keycloak.reason)
                else Shows(after, ArgoCDReady, ConditionFalse, ArgoCDDisabled))
            && (forall k | k !in {VaultConfigured, ArgoCDReady} :: Find(after.conditions, k) == Find(st.conditions, k))
            && (IntegrationsFail(spec, a) <==> a.vault.failed || a.pairingFails || (spec.argoCD && a.keycloak.failed))
            && (r == 0 <==> wanted == {0})
            && (r > 0 ==> r in wanted && forall w | w in wanted && w > 0 :: r <= w)
  {
    hide Set, Find;
    var k := if spec.argoCD then a.keycloak.requeue else 0;
    var wanted := {a.vault.requeue, a.pairingRequeue} + if spec.argoCD then {a.keycloak.requeue} else {};
    assert a.vault.requeue in wanted && a.pairingRequeue in wanted && (spec.argoCD ==> k in wanted);
    if IntegrationRequeue(spec, a) == 0 {
      assert wanted == {0};
    } else {
      assert IntegrationRequeue(spec, a) in wanted;
    }
  }

  // ---- observation ----

  /** After a pass that observes, each value is the one just read, or where it could not be read,
      the last one; what decides Ready is what was just told. */
  lemma ObservedTakesWhatIsRead(spec: Spec, st: Status, o: Observation, now: int)
    ensures var r := Observed(spec, st, o, now);
            && r.chartVersion == (if o.failed || o.chartVersion == "" then st.chartVersion else o.chartVersion)
            && r.k8sVersion == (if o.failed || o.k8sVersion == "" then st.k8sVersion else o.k8sVersion)
            && r.protectionEnabled == (if o.failed || o.timedOut || !o.protectionKnown then st.protectionEnabled else o.protected)
            && r.rancherPaired == (if o.failed || !o.rancherKnown then st.rancherPaired else o.rancherPaired)
            && r.deletion == st.deletion
            && (HasStatus(r.conditions, Ready, ConditionTrue) ==>
                  !o.failed && !o.timedOut && o.helmRelease == FluxReady && o.kustomization == FluxReady
                  && (spec.argoCD && HasStatus(st.conditions, ArgoCDReady, ConditionTrue) ==> o.argoCD == FluxReady))
  {
    var seen := AfterObservation(spec, st, o, now);
    AggregateIsConjunction(spec, seen, now);
    ToldMeans(spec, st.conditions, o, now);
    RefinesOnlyTrue(Told(spec, st.conditions, o, now), o, now);
    RefinedIsFound(Told(spec, st.conditions, o, now), o, now);
    hide Aggregated, Told, RefinedArgoCD, Find, Set;
    if HasStatus(Observed(spec, st, o, now).conditions, Ready, ConditionTrue) {
      ReadyIsAll(spec, seen);
    }
  }

  lemma RefinedIsFound(conds: seq<Condition>, o: Observation, now: int)
    ensures Find(RefinedArgoCD(conds, o, now), ArgoCDReady) == None <==> Find(conds, ArgoCDReady) == None
  {
    hide Set, Find;
  }

  lemma ReadyIsAll(spec: Spec, st: Status)
    requires Conjunction(spec, st) == ConditionTrue
    ensures HasStatus(st.conditions, ResourcesProvisioned, ConditionTrue)
    ensures spec.argoCD ==> Find(st.conditions, ArgoCDReady) == None || HasStatus(st.conditions, ArgoCDReady, ConditionTrue)
    ensures Find(st.conditions, VaultConfigured) == None || HasStatus(st.conditions, VaultConfigured, ConditionTrue)
  {
    hide Find;
    assert Blocking(ResourcesProvisioned, spec, st) && Blocking(VaultConfigured, spec, st);
    assert spec.argoCD ==> Blocking(ArgoCDReady, spec, st);
  }

  // ---- what is stored ----

  /** What a pass whose last write lands stores, after a status: a misplaced object is told so, and
      nothing else of it changes; an object without its finalizer gets it first; and past that the
      outcome of the pass comes last, its failures included. */
  predicate Stores(name: string, finalizer: bool, before: Status, stored: seq<Status>, p: Pass) {
    if !Tenant(name) || !p.atHome then
      && |stored| == 1 && stored[0] == before.(conditions := stored[0].conditions)
      && Shows(stored[0], Accepted, ConditionFalse, NamespaceMismatch)
    else if !finalizer && !p.finalizerStored then stored == []
    else stored != [] && stored[|stored| - 1] == AllSteps(p.spec, name, before, p.answers).status
  }

  lemma PersistedTells(name: string, finalizer: bool, st: Status, p: Pass)
    requires p.finalStored
    ensures Stores(name, finalizer, st, Persisted(name, finalizer, st, p), p)
  {
    ValidNameExactly(name);
    hide AllSteps, ValidName, Tenant, Set, Find;
  }

  /** So after every run: its last pass adds to what was stored just that. */
  lemma EveryPassIsStored(name: string, first: Status, ps: seq<Pass>)
    requires ps != [] && ps[|ps| - 1].finalStored
    ensures var l, h := Run(name, first, ps[..|ps| - 1]), Run(name, first, ps).history;
            && l.history <= h
            && Stores(name, l.finalizer, l.history[|l.history| - 1], h[|l.history|..], ps[|ps| - 1])
  {
    hide *;
    var l := Run(name, first, ps[..|ps| - 1]);
    PersistedTells(name, l.finalizer, l.history[|l.history| - 1], ps[|ps| - 1]);
    RunGoesOn(name, first, ps);
    assert (l.history + Persisted(name, l.finalizer, l.history[|l.history| - 1], ps[|ps| - 1]))[|l.history|..] ==
           Persisted(name, l.finalizer, l.history[|l.history| - 1], ps[|ps| - 1]);
  }

  lemma RunGoesOn(name: string, first: Status, ps: seq<Pass>)
    requires ps != []
    ensures var l := Run(name, first, ps[..|ps| - 1]);
            Run(name, first, ps).history ==
            l.history + Persisted(name, l.finalizer, l.history[|l.history| - 1], ps[|ps| - 1])
  {
    hide Persisted, ValidName;
  }
}
