/**
 What every status stored on the live path has in common, over any number of passes,
 whatever the spec becomes, whatever fails and whichever writes are lost.
 */
module LiveRuns {
  import opened Wrappers
  import opened Conditions
  import opened VClusters
  import opened Aggregation
  import opened Budget
  import opened LivePath

  function ReadyCond(st: Status): Option<Condition> {
    Find(st.conditions, Ready)
  }

  predicate ReadyIs(st: Status, status: ConditionStatus, reasons: set<Reason>) {
    ReadyCond(st).Some? && ReadyCond(st).value.status == status && ReadyCond(st).value.reason in reasons
  }

  /** A chart that deployed once is never called failed, provisioning or new. */
  predicate EverDeployed(st: Status) {
    st.chartVersion != "" ==> st.phase != PhaseFailed && st.phase != Provisioning && st.phase != NoPhase
  }

  /** A sleeping vcluster has its window, and does not pass for ready. */
  predicate AsleepIsVisible(st: Status) {
    st.phase == Suspended ==> Window(st).Some? && ReadyIs(st, ConditionFalse, {SuspendedReason, ResumeFailed})
  }

  /** Ready True comes with the phase Ready; the phase outlives it only when putting
      to sleep failed. */
  predicate ReadyAgrees(st: Status) {
    && (HasStatus(st.conditions, Ready, ConditionTrue) ==> st.phase == PhaseReady)
    && (st.phase == PhaseReady ==> HasStatus(st.conditions, Ready, ConditionTrue) || ReadyIs(st, ConditionFalse, {SuspendFailed}))
  }

  predicate Sound(st: Status) {
    EverDeployed(st) && AsleepIsVisible(st) && ReadyAgrees(st)
  }

  predicate ChartKept(st: Status, st': Status) {
    st.chartVersion != "" ==> st'.chartVersion != ""
  }

  const BLANK := Status(NoPhase, [], "", "", false, false, None)

  // ---- step by step ----

  lemma OtherCondition(st: Status, k: CondType, status: ConditionStatus, reason: Reason, now: int)
    requires k != Ready && Sound(st)
    ensures Sound(WithCond(st, k, status, reason, now))
  {
    hide Set, Find;
    assert ReadyCond(WithCond(st, k, status, reason, now)) == ReadyCond(st);
  }

  /** Aggregating is sound whatever the status was. */
  lemma AggregatedIsSound(spec: Spec, st: Status, now: int)
    ensures var r := Aggregated(spec, st, now);
            Sound(r) && r.chartVersion == st.chartVersion && r.phase != Suspended
  {
    hide Set, Find, FirstWith, BlockingConditions;
    var r := Aggregated(spec, st, now);
    assert r.phase in {PhaseReady, PhaseFailed, Provisioning, Degraded};
  }

  lemma ObservedIsSound(spec: Spec, st: Status, a: Answers)
    ensures var o := Settled(spec, st, a);
            Sound(o.status) && ChartKept(st, o.status) && o.mid == None && o.status.phase != Suspended
  {
    hide Aggregated, Told, RefinedArgoCD, Sound;
    AggregatedIsSound(spec, AfterObservation(spec, st, a.seen, a.now), a.now);
  }

  lemma SuspendIsSound(spec: Spec, st: Status, a: Answers)
    requires Sound(st)
    ensures Sound(AfterSuspend(spec, st, a).0) && AfterSuspend(spec, st, a).0.chartVersion == st.chartVersion
  {
    hide Set, Find;
  }

  lemma JudgedIsSound(st: Status, v: Verdict, now: int)
    requires Sound(st) && !v.Refused?
    ensures Sound(Recorded(st, v, now)) && Recorded(st, v, now).chartVersion == st.chartVersion
  {
    if v.Admitted? {
      OtherCondition(st, BudgetOK, ConditionTrue, v.reason, now);
    }
  }

  lemma ProvisioningIsSound(spec: Spec, name: string, st: Status, a: Answers)
    requires Sound(st) && st.phase != Suspended
    ensures AfterProvisioning(spec, name, st, a).chartVersion == st.chartVersion
    ensures Provision(spec, name, a).0 != RefusedSpec ==> Sound(AfterProvisioning(spec, name, st, a))
  {
    var (what, reason) := Provision(spec, name, a);
    hide Provision, Set, Find;
    if what == ProvisionFailed {
      OtherCondition(st, ResourcesProvisioned, ConditionFalse, reason, a.now);
    } else if what == Proceed {
      var moved := if st.phase == NoPhase || st.phase == PhaseFailed then st.(phase := Provisioning) else st;
      assert Sound(moved);
      OtherCondition(moved, ResourcesProvisioned, ConditionTrue, reason, a.now);
    }
  }

  lemma IntegrationsAreSound(spec: Spec, st: Status, a: Answers)
    requires Sound(st)
    ensures Sound(AfterIntegrations(spec, st, a)) && AfterIntegrations(spec, st, a).chartVersion == st.chartVersion
  {
    hide Sound;
    var st' := WithCond(st, VaultConfigured, a.vault.status, a.vault.reason, a.now);
    OtherCondition(st, VaultConfigured, a.vault.status, a.vault.reason, a.now);
    OtherCondition(st', ArgoCDReady, a.keycloak.status, a.keycloak.reason, a.now);
    OtherCondition(st', ArgoCDReady, ConditionFalse, ArgoCDDisabled, a.now);
  }

  lemma AdmissionIsSound(spec: Spec, name: string, st: Status, a: Answers)
    requires Sound(st) && st.phase != Suspended
    ensures var o := AfterAdmission(spec, name, st, a);
            && Sound(o.status) && ChartKept(st, o.status)
            && (o.mid.Some? ==> Sound(o.mid.value) && ChartKept(st, o.mid.value))
  {
    hide Sound, AfterProvisioning, AfterIntegrations, Provision, Settled, Aggregated;
    var st1 := AfterProvisioning(spec, name, st, a);
    ProvisioningIsSound(spec, name, st, a);
    AggregatedIsSound(spec, st1, a.now);
    if Provision(spec, name, a).0 == Proceed {
      IntegrationsAreSound(spec, st1, a);
      ObservedIsSound(spec, AfterIntegrations(spec, st1, a), a);
    }
  }

  /** A pass over a sound status only stores sound ones, and loses no chart. */
  lemma PassIsSound(spec: Spec, name: string, st: Status, a: Answers)
    requires Sound(st)
    ensures var o := AllSteps(spec, name, st, a);
            && Sound(o.status) && ChartKept(st, o.status)
            && (o.mid.Some? ==> Sound(o.mid.value) && ChartKept(st, o.mid.value))
  {
    hide Sound, AfterSuspend, Checked, Recorded, Settled, Aggregated, AfterAdmission;
    var slept := AfterSuspend(spec, st, a).0;
    SuspendIsSound(spec, st, a);
    if slept.phase != Suspended {
      var v := Checked(spec, a.budget, a.parse);
      var judged := Recorded(slept, v, a.now);
      JudgedKeepsChart(slept, v, a.now);
      ObservedIsSound(spec, judged, a);
      AggregatedIsSound(spec, judged, a.now);
      if !v.Refused? {
        JudgedIsSound(slept, v, a.now);
        AdmissionIsSound(spec, name, judged, a);
      }
    }
  }

  lemma JudgedKeepsChart(st: Status, v: Verdict, now: int)
    ensures Recorded(st, v, now).chartVersion == st.chartVersion
    ensures !v.Refused? ==> Recorded(st, v, now).phase == st.phase
  {
  }

  // ---- whole runs ----

  datatype Life = Life(history: seq<Status>, finalizer: bool)

  /** Every status stored over the passes, first to last. */
  function Run(name: string, first: Status, ps: seq<Pass>): (l: Life)
    ensures l.history != []
  {
    if ps == [] then Life([first], false)
    else
      var l := Run(name, first, ps[..|ps| - 1]);
      var p := ps[|ps| - 1];
      Life(l.history + Persisted(name, l.finalizer, l.history[|l.history| - 1], p),
           l.finalizer || (ValidName(name) && p.atHome && p.finalizerStored))
  }

  ghost predicate GoodHistory(h: seq<Status>) {
    && (forall i | 0 <= i < |h| :: Sound(h[i]))
    && (forall i, j | 0 <= i <= j < |h| :: ChartKept(h[i], h[j]))
  }

  lemma PersistedAreGood(name: string, finalizer: bool, st: Status, p: Pass)
    requires Sound(st)
    ensures GoodHistory([st] + Persisted(name, finalizer, st, p))
  {
    hide Sound, AllSteps;
    var o := AllSteps(p.spec, name, st, p.answers);
    PassIsSound(p.spec, name, st, p.answers);
    if !ValidName(name) || !p.atHome {
      OtherCondition(st, Accepted, ConditionFalse, NamespaceMismatch, p.answers.now);
    }
    hide ValidName;
    MidIsFinal(p.spec, name, st, p.answers);
  }

  /** What provisioning stores by itself is what the pass stores at its end. */
  lemma MidIsFinal(spec: Spec, name: string, st: Status, a: Answers)
    ensures AllSteps(spec, name, st, a).mid.Some? ==>
              AllSteps(spec, name, st, a).mid.value == AllSteps(spec, name, st, a).status
  {
    hide AfterSuspend, Checked, Recorded, Observed, Aggregated, AfterProvisioning, AfterIntegrations, Provision;
  }

  /** Over every run from a new object: a chart once deployed stays recorded, such an
      object is never called failed, provisioning or new, a sleeping one keeps its
      window, and Ready and the phase agree. */
  lemma {:induction false} EveryStoredStatusIsSound(name: string, first: Status, ps: seq<Pass>)
    requires Sound(first)
    ensures GoodHistory(Run(name, first, ps).history)
  {
    if ps == [] {
    } else {
      hide Sound, Persisted, ChartKept, ValidName;
      EveryStoredStatusIsSound(name, first, ps[..|ps| - 1]);
      var l := Run(name, first, ps[..|ps| - 1]);
      var n, p := |l.history|, ps[|ps| - 1];
      var last := l.history[n - 1];
      PersistedAreGood(name, l.finalizer, last, p);
      var more := Persisted(name, l.finalizer, last, p);
      Chain(l.history, more);
    }
  }

  lemma Chain(h: seq<Status>, more: seq<Status>)
    requires h != [] && GoodHistory(h) && GoodHistory([h[|h| - 1]] + more)
    ensures GoodHistory(h + more)
  {
    hide Sound;
    var tail := [h[|h| - 1]] + more;
    var n := |h| - 1;
    assert forall i | n <= i < |h + more| :: (h + more)[i] == tail[i - n];
    forall i, j | 0 <= i <= j < |h + more|
      ensures ChartKept((h + more)[i], (h + more)[j])
    {
      if i < n && n < j {
        assert ChartKept(h[i], h[n]) && ChartKept(tail[0], tail[j - n]);
      }
    }
  }

  lemma BlankIsSound()
    ensures Sound(BLANK)
  {
  }

  // ---- what a pass tells ----

  /** A refusal reaches the channel Flux reads: it leaves Ready False, unless it is the
      budget's and the vcluster already runs. */
  lemma RefusalShowsInReady(spec: Spec, name: string, st: Status, a: Answers)
    requires !AfterSuspend(spec, st, a).1 && AfterSuspend(spec, st, a).0.phase != Suspended
    requires var v := Checked(spec, a.budget, a.parse);
             (v.Refused? && st.chartVersion == "")
             || (!v.Refused? && v != Failure && Provision(spec, name, a).0 == RefusedSpec)
    ensures HasStatus(AllSteps(spec, name, st, a).status.conditions, Ready, ConditionFalse)
    ensures !AllSteps(spec, name, st, a).failed
  {
    hide Checked, Provision, Set, Find, FirstWith, BlockingConditions;
    var v := Checked(spec, a.budget, a.parse);
    var slept := AfterSuspend(spec, st, a).0;
    var judged := Recorded(slept, v, a.now);
    if v.Refused? {
      BlockingFalse(spec, judged, BudgetOK, a.now);
    } else {
      BlockingFalse(spec, AfterProvisioning(spec, name, judged, a), ResourcesProvisioned, a.now);
    }
  }

  lemma BlockingFalse(spec: Spec, st: Status, t: CondType, now: int)
    requires t == ResourcesProvisioned || (t == BudgetOK && st.chartVersion == "")
    requires HasStatus(st.conditions, t, ConditionFalse)
    ensures HasStatus(Aggregated(spec, st, now).conditions, Ready, ConditionFalse)
  {
    AggregateIsConjunction(spec, st, now);
    hide Aggregated, Find;
    assert Blocking(t, spec, st) && Contribution(st.conditions, t) == ConditionFalse;
  }

  /** A running vcluster the budget refuses is observed like any other, and the refusal
      itself does not turn its Ready. */
  lemma RunningIsObservedThoughRefused(spec: Spec, name: string, st: Status, a: Answers)
    requires !AfterSuspend(spec, st, a).1 && AfterSuspend(spec, st, a).0.phase != Suspended
    requires Checked(spec, a.budget, a.parse).Refused? && st.chartVersion != ""
    ensures var o := AllSteps(spec, name, st, a);
            var seen := AfterObservation(spec, AfterSuspend(spec, st, a).0, a.seen, a.now);
            && o.status.chartVersion == seen.chartVersion && o.status.k8sVersion == seen.k8sVersion
            && HasStatus(o.status.conditions, Ready, Conjunction(spec, seen))
            && HasStatus(o.status.conditions, BudgetOK, ConditionFalse)
  {
    var v := Checked(spec, a.budget, a.parse);
    var slept := AfterSuspend(spec, st, a).0;
    var judged := Recorded(slept, v, a.now);
    assert slept.chartVersion == st.chartVersion;
    hide AfterSuspend, Checked, Set, Find, Aggregated, ProvisionedFrom, RancherPairedFrom, DeletionProtectedFrom;
    var seen, with := AfterObservation(spec, slept, a.seen, a.now), AfterObservation(spec, judged, a.seen, a.now);
    AggregateIsConjunction(spec, with, a.now);
    BudgetIsFound(spec, slept, v, a.seen, a.now);
    SameConjunction(spec, seen, with);
  }

  lemma BudgetIsFound(spec: Spec, st: Status, v: Verdict, o: Observation, now: int)
    requires v.Refused?
    ensures var seen, with := AfterObservation(spec, st, o, now), AfterObservation(spec, Recorded(st, v, now), o, now);
            && HasStatus(with.conditions, BudgetOK, ConditionFalse)
            && (forall k | k != BudgetOK :: Find(with.conditions, k) == Find(seen.conditions, k))
            && with.chartVersion == seen.chartVersion && with.k8sVersion == seen.k8sVersion
  {
    hide Find, Set, RefinedArgoCD, Told;
    var conds := Set(st.conditions, BudgetOK, ConditionFalse, v.reason, now);
    ToldTwice(spec, st.conditions, conds, o, now);
    RefinedTwice(Told(spec, st.conditions, o, now), Told(spec, conds, o, now), o, now);
  }

  lemma ToldTwice(spec: Spec, xs: seq<Condition>, ys: seq<Condition>, o: Observation, now: int)
    requires forall k | k != BudgetOK :: Find(xs, k) == Find(ys, k)
    ensures forall k | k != BudgetOK :: Find(Told(spec, xs, o, now), k) == Find(Told(spec, ys, o, now), k)
    ensures Find(Told(spec, ys, o, now), BudgetOK) == Find(ys, BudgetOK)
  {
    hide Find, Set, ProvisionedFrom, RancherPairedFrom, DeletionProtectedFrom;
  }

  lemma RefinedTwice(xs: seq<Condition>, ys: seq<Condition>, o: Observation, now: int)
    requires forall k | k != BudgetOK :: Find(xs, k) == Find(ys, k)
    ensures forall k | k != BudgetOK :: Find(RefinedArgoCD(xs, o, now), k) == Find(RefinedArgoCD(ys, o, now), k)
    ensures Find(RefinedArgoCD(ys, o, now), BudgetOK) == Find(ys, BudgetOK)
  {
    hide Find, Set;
  }

  lemma SameConjunction(spec: Spec, a: Status, b: Status)
    requires forall k | k != BudgetOK :: Find(a.conditions, k) == Find(b.conditions, k)
    requires a.chartVersion == b.chartVersion && a.chartVersion != ""
    ensures Conjunction(spec, a) == Conjunction(spec, b)
  {
    hide Find;
    assert forall t :: Blocking(t, spec, a) <==> Blocking(t, spec, b);
    assert forall t | Blocking(t, spec, a) :: Contribution(a.conditions, t) == Contribution(b.conditions, t);
  }

  // ---- the window of a sleeping vcluster ----

  /** Two attempts to put the same vcluster to sleep, the first one's status lost: the
      second keeps the first one's window exactly when a window was already stored, or
      no time has passed. A lost write therefore moves it. */
  lemma WindowSurvivesLostWrite(spec: Spec, st: Status, a: Answers, b: Answers)
    requires spec.suspend && st.phase != Suspended && a.suspends && b.suspends
    ensures Window(AfterSuspend(spec, st, a).0).Some? && Window(AfterSuspend(spec, st, b).0).Some?
    ensures Window(AfterSuspend(spec, st, a).0) == Window(AfterSuspend(spec, st, b).0) <==>
            Window(st).Some? || a.now == b.now
  {
    hide Set, Find;
  }

  /** Once stored, the window stays where it is for as long as the vcluster sleeps. */
  lemma WindowStaysWhileAsleep(spec: Spec, name: string, st: Status, a: Answers)
    requires st.phase == Suspended && AllSteps(spec, name, st, a).status.phase == Suspended
    ensures Window(AllSteps(spec, name, st, a).status) == Window(st)
  {
    var slept := AfterSuspend(spec, st, a).0;
    if slept.phase != Suspended {
      hide AfterSuspend, Checked, Recorded, Settled, Aggregated, AfterAdmission;
      var v := Checked(spec, a.budget, a.parse);
      var judged := Recorded(slept, v, a.now);
      JudgedKeepsChart(slept, v, a.now);
      ObservedIsSound(spec, judged, a);
      AggregatedIsSound(spec, judged, a.now);
      StaysAwake(spec, name, judged, a);
    }
  }

  lemma StaysAwake(spec: Spec, name: string, st: Status, a: Answers)
    ensures st.phase != Suspended ==> AfterAdmission(spec, name, st, a).status.phase != Suspended
  {
    hide Aggregated, Settled, Provision, Sound, Set, Find;
    AggregatedIsSound(spec, AfterProvisioning(spec, name, st, a), a.now);
    ObservedIsSound(spec, AfterIntegrations(spec, AfterProvisioning(spec, name, st, a), a), a);
  }
}
