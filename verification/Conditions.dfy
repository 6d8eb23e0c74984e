/**
 Status conditions: a list keyed by type. Setting one keeps its transition time
 for as long as its status stays the same.
 */
module Conditions {
  import opened Wrappers

  datatype ConditionStatus = ConditionTrue | ConditionFalse | ConditionUnknown

  datatype CondType =
    | Accepted | Ready | ResourcesProvisioned | BudgetOK | ArgoCDReady | VaultConfigured
    | RancherPaired | DeletionProtected | BackupCompleted | NamespaceRemoved
    | RestoreInProgress | RestoreRejectedBusy | FluxResumePending | RestoreNeedsRetry

  /** Why a condition has its status; the wording of messages is not modelled. */
  datatype Reason =
    // aggregation
    | NotMet(blocking: CondType) | UnknownOf(blocking: CondType) | NotObservedYet | AllChecksPassed
    // live path
    | NamespaceMismatch | SuspendFailed | SuspendedReason | ResumeFailed | Resuming
    | NoQuotaRequested | NoBudgetConfigured | InvalidQuantity | BudgetExceeded | WithinBudget
    | TypeNotImplemented | InvalidName | RenderFailed | ApplyFailed | Applied
    | NoClusterClient | ReadTimedOut | Healthy | FluxNotReady | NotReadable
    | NotObserved | LookupFailed | RancherDisabled | RancherPairedActive | RancherManuallyPaired
    | RancherPairing | RancherCleaning | RancherNotPaired
    | SpecOnly | NamespaceDiverges | InSync
    | ArgoCDKustomizationReady | ArgoCDKustomizationNotReady | ArgoCDKustomizationNotReadable
    | ArgoCDDisabled | IntegrationAs(state: int)
    // deletion
    | ProtectionLifted | DeletionProtectionBlocked
    | NoRancherClient | UnpairTimedOut | UnpairUnconfirmed | UnpairFailed | Unpairing
    | CleanupTimedOut | CleanupRunning | CleanupFailed | UnpairedCleanupUnobserved | Unpaired
    | NothingToBackUp | BackupOverridden | BackupUnknown | InProgress | BackupFailed | BackupTimedOut
    | BackupTriggerFailed | Completed
    | ProtectionUnknown | ProtectionRemovalFailed | TeardownFailed | NamespaceDeletionForbidden
    | NamespaceGone | NamespaceStateUnknown | RemovalUnconfirmed | NamespaceTerminating | Deleted
    // restore
    | TriggerFailed | Failed | AlreadyRunning | TargetOutsideMarker | Requested | Adopted | Interrupted
    | VolumeGoneNoRestore | AbortFailed | Aborted | InterruptedBeforePointOfNoReturn | StageFailed
    | VolumeGone | Forbidden | ResumeGaveUp | ResumePending | Resumed | VolumeDestroyed

  datatype Condition = Condition(kind: CondType, status: ConditionStatus, reason: Reason, since: int)

  /** The condition of a type, the first one if a list ever holds two. */
  function Find(conds: seq<Condition>, kind: CondType): Option<Condition> {
    if conds == [] then None else if conds[0].kind == kind then Some(conds[0]) else Find(conds[1..], kind)
  }

  /** A condition after being set: its transition time moves only with its status. */
  function Updated(before: Option<Condition>, kind: CondType, status: ConditionStatus, reason: Reason, now: int): Condition {
    Condition(kind, status, reason, if before.Some? && before.value.status == status then before.value.since else now)
  }

  function Set(conds: seq<Condition>, kind: CondType, status: ConditionStatus, reason: Reason, now: int)
    : (r: seq<Condition>)
    ensures forall k :: Find(r, k) ==
                        if k == kind then Some(Updated(Find(conds, kind), kind, status, reason, now)) else Find(conds, k)
  {
    if conds == [] then [Condition(kind, status, reason, now)]
    else if conds[0].kind == kind then [Updated(Some(conds[0]), kind, status, reason, now)] + conds[1..]
    else [conds[0]] + Set(conds[1..], kind, status, reason, now)
  }

  function Remove(conds: seq<Condition>, kind: CondType): (r: seq<Condition>)
    ensures forall k :: Find(r, k) == if k == kind then None else Find(conds, k)
  {
    if conds == [] then []
    else if conds[0].kind == kind then Remove(conds[1..], kind)
    else [conds[0]] + Remove(conds[1..], kind)
  }

  predicate HasReason(conds: seq<Condition>, kind: CondType, reason: Reason) {
    Find(conds, kind).Some? && Find(conds, kind).value.reason == reason
  }

  predicate HasStatus(conds: seq<Condition>, kind: CondType, status: ConditionStatus) {
    Find(conds, kind).Some? && Find(conds, kind).value.status == status
  }

  /** One condition per type. */
  ghost predicate Keyed(conds: seq<Condition>) {
    forall i, j | 0 <= i < j < |conds| :: conds[i].kind != conds[j].kind
  }

  lemma {:induction false} FindIsMember(conds: seq<Condition>, kind: CondType)
    ensures Find(conds, kind).Some? ==> Find(conds, kind).value in conds && Find(conds, kind).value.kind == kind
    ensures Find(conds, kind) == None ==> forall c | c in conds :: c.kind != kind
  {
    if conds != [] && conds[0].kind != kind {
      FindIsMember(conds[1..], kind);
      assert forall c | c in conds :: c == conds[0] || c in conds[1..];
    }
  }

  /** In a keyed list, what is found does not depend on the order. */
  lemma OrderDoesNotMatter(xs: seq<Condition>, ys: seq<Condition>, kind: CondType)
    requires Keyed(xs) && Keyed(ys) && multiset(xs) == multiset(ys)
    ensures Find(xs, kind) == Find(ys, kind)
  {
    FindIsMember(xs, kind);
    FindIsMember(ys, kind);
    hide Find;
    assert forall c :: c in xs <==> c in multiset(xs);
    assert forall c :: c in ys <==> c in multiset(ys);
    if Find(xs, kind).Some? && Find(ys, kind).Some? {
      var a, b := Find(xs, kind).value, Find(ys, kind).value;
      assert b in xs;
      var i :| 0 <= i < |xs| && xs[i] == a;
      var j :| 0 <= j < |xs| && xs[j] == b;
    }
  }
}
