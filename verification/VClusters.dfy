/**
 The VCluster object: what is asked for, and the status the operator writes.
 */
module VClusters {
  import opened Text
  import opened Wrappers
  import opened Conditions

  datatype Phase = NoPhase | Pending | Provisioning | PhaseReady | Degraded | Suspended | Deleting | PhaseFailed

  datatype Quotas = Quotas(enabled: bool, cpu: string, memory: string, storage: string)

  datatype Spec = Spec(
    capi: bool, deletionProtection: bool, suspend: bool, argoCD: bool, quotas: Option<Quotas>)

  datatype Stage = NoStage | Blocked | RancherUnpairing | BackupPending | ProtectionRemoval | Destroying

  datatype DeletionStatus = DeletionStatus(gracePeriodEndsAt: Option<int>, stage: Stage)

  datatype Status = Status(
    phase: Phase,
    conditions: seq<Condition>,
    chartVersion: string,
    k8sVersion: string,
    protectionEnabled: bool,
    rancherPaired: bool,
    deletion: Option<DeletionStatus>)

  /** The object a reconcile works on, in memory. */
  class VCluster {
    const name: string
    var spec: Spec
    var phase: Phase
    var conditions: seq<Condition>
    var chartVersion: string
    var k8sVersion: string
    var protectionEnabled: bool
    var rancherPaired: bool
    var deletion: Option<DeletionStatus>

    constructor (name: string, spec: Spec, st: Status)
      ensures this.name == name && this.spec == spec && View() == st
    {
      this.name := name;
      this.spec := spec;
      phase := st.phase;
      conditions := st.conditions;
      chartVersion := st.chartVersion;
      k8sVersion := st.k8sVersion;
      protectionEnabled := st.protectionEnabled;
      rancherPaired := st.rancherPaired;
      deletion := st.deletion;
    }

    function View(): Status
      reads this
    {
      Status(phase, conditions, chartVersion, k8sVersion, protectionEnabled, rancherPaired, deletion)
    }

    method SetCond(kind: CondType, status: ConditionStatus, reason: Reason, now: int)
      modifies this`conditions
      ensures conditions == Set(old(conditions), kind, status, reason, now)
    {
      conditions := Set(conditions, kind, status, reason, now);
    }
  }

  function WithCond(st: Status, kind: CondType, status: ConditionStatus, reason: Reason, now: int): Status {
    st.(conditions := Set(st.conditions, kind, status, reason, now))
  }

  /** service.ValidName: [a-z][a-z0-9-]*, and not the operator's own name. */
  predicate ValidName(name: string) {
    && name != "" && name != "manager"
    && 'a' <= name[0] <= 'z'
    && forall c | c in name :: 'a' <= c <= 'z' || '0' <= c <= '9' || c == '-'
  }

  /** A name that can be a tenant's: a small letter, then small letters, numerals and dashes, and
      not the operator's own. */
  predicate Tenant(name: string) {
    name != "" && name != "manager" && name[0] in LOWER && forall c | c in name :: c in LOWER + NUMERALS + {'-'}
  }

  /** The valid names are the tenants'. */
  lemma ValidNameExactly(name: string)
    ensures ValidName(name) <==> Tenant(name)
  {
    forall c: char
      ensures c in LOWER <==> 'a' <= c <= 'z'
      ensures c in NUMERALS <==> '0' <= c <= '9'
    {
      LettersAre(c);
    }
    hide UPPER, LOWER, NUMERALS;
  }

  /** The namespace a vcluster lives in on the host cluster. */
  function HostNamespace(name: string): string {
    "vcluster-" + name
  }
}
