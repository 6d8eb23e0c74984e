/**
 The deletion finalizer: one pass over a VCluster being deleted. Every step re-derives
 where it stands from the outside; the status only carries wait anchors.
 */
module Deletion {
  import opened Wrappers
  import opened Turns
  import opened Text
  import opened Conditions
  import opened VClusters
  import opened BackupSelection
  import opened DeletionWorld

  const RANCHER_GIVE_UP_AFTER := 600
  const BACKUP_GIVE_UP_AFTER := 7200
  const NAMESPACE_GIVE_UP_AFTER := 600
  const STEP_REQUEUE := 30
  const REQUEUE_INTERVAL := 10

  /** How a step or a pass ends: on to the next, come back later (0: only when the
      object changes), an error, or the operator killed. */
  datatype Verdict = Continue | Wait(requeue: nat) | Error | Dead

  /** One pass: what happens before it begins, the copy of the object it works from,
      and a turn for each call. */
  datatype Pass = Pass(
    idle: seq<Event>, stale: Option<CR>,
    rancher: Turn, unpair: Turn,
    firstLook: Turn, inspect: Turn, trigger: Turn, backupName: string,
    protection: Turn, lift: Turn, teardown: Turn, look: Turn, delete: Turn, lookAgain: Turn,
    store: Turn, release: Turn)

  datatype Go = Go(c: Cluster, st: Status, v: Verdict)

  function Lower(s: string): string {
    seq(|s|, i requires 0 <= i < |s| => if 'A' <= s[i] <= 'Z' then (s[i] as int + 32) as char else s[i])
  }

  const NEGATIVES := {"", "false", "no", "non", "0", "off"}

  /** Whether the override annotation really lifts the demand for a backup. */
  predicate OverrideDisarms(v: string) {
    Lower(Trim(v)) !in NEGATIVES
  }

  /** A wait is bounded by its condition's transition time, which lives in the status. */
  predicate Overdue(conds: seq<Condition>, kind: CondType, status: ConditionStatus, after: int, now: int) {
    match Find(conds, kind)
    case None => false
    case Some(c) => c.status == status && now - c.since > after
  }

  function Anchor(startedAt: int, deletedAt: int): int {
    if startedAt == 0 then deletedAt else startedAt
  }

  function AtStage(st: Status, stage: Stage): Status {
    st.(deletion := Some(DeletionStatus(if st.deletion.Some? then st.deletion.value.gracePeriodEndsAt else None, stage)))
  }

  // ---- protection ----

  function ProtectionStep(c: Cluster, copy: CR, st: Status): Go {
    if !copy.spec.deletionProtection then
      Go(c, WithCond(st, DeletionProtected, ConditionFalse, ProtectionLifted, c.now), Continue)
    else
      Go(c, WithCond(WithCond(AtStage(st, Blocked), DeletionProtected, ConditionTrue, DeletionProtectionBlocked, c.now),
                     Ready, ConditionFalse, DeletionProtectionBlocked, c.now), Wait(0))
  }

  // ---- Rancher ----

  function RancherStep(c: Cluster, copy: CR, st: Status, p: Pass): Go {
    var (c1, seen) := InspectRancher(c, p.rancher);
    var st1 := AtStage(st, RancherUnpairing);
    if !Alive(p.rancher) then Go(c1, st, Dead)
    else if seen.notConfigured then Go(c1, WithCond(st, RancherPaired, ConditionUnknown, NoRancherClient, c1.now), Continue)
    else if !seen.enabled then Go(c1, st, Continue)
    else if seen.lookupFailed || seen.stillKnown then
      if Overdue(st.conditions, RancherPaired, ConditionTrue, RANCHER_GIVE_UP_AFTER, c1.now) then
        Go(c1, WithCond(st1, RancherPaired, ConditionUnknown,
                        if seen.lookupFailed then UnpairUnconfirmed else UnpairTimedOut, c1.now), Continue)
      else
        var (c2, ok) := Unpair(c1, p.unpair);
        if !Alive(p.unpair) then Go(c2, st1, Dead)
        else if !ok then Go(c2, WithCond(st1, RancherPaired, ConditionTrue, UnpairFailed, c2.now), Error)
        else Go(c2, WithCond(st1, RancherPaired, ConditionTrue, Unpairing, c2.now), Wait(STEP_REQUEUE))
    else if seen.cleanup.found && !seen.cleanup.done && !seen.cleanup.failed then
      if c1.now - Anchor(seen.cleanup.startedAt, copy.deletedAt) > RANCHER_GIVE_UP_AFTER then
        Go(c1, WithCond(st1, RancherPaired, ConditionFalse, CleanupTimedOut, c1.now), Continue)
      else Go(c1, WithCond(st1, RancherPaired, ConditionFalse, CleanupRunning, c1.now), Wait(STEP_REQUEUE))
    else
      Go(c1, WithCond(st1, RancherPaired, ConditionFalse,
                      if seen.cleanup.failed then CleanupFailed
                      else if !seen.cleanup.observable then UnpairedCleanupUnobserved
                      else Unpaired, c1.now), Continue)
  }

  // ---- backup ----

  /** What an inspected backup, or its absence, makes the step do; `launched` when the
      stored status says one was started. */
  function Judged(c: Cluster, copy: CR, st: Status, seen: DeletionBackup, launched: bool, p: Pass): Go {
    if seen.completed then Go(c, WithCond(st, BackupCompleted, ConditionTrue, Reason.Completed, c.now), Continue)
    else if seen.failed then Go(c, WithCond(st, BackupCompleted, ConditionFalse, BackupFailed, c.now), Wait(0))
    else if seen.found then
      if c.now - Anchor(seen.startedAt, copy.deletedAt) > BACKUP_GIVE_UP_AFTER then
        Go(c, WithCond(st, BackupCompleted, ConditionFalse, BackupTimedOut, c.now), Wait(0))
      else Go(c, WithCond(st, BackupCompleted, ConditionUnknown, InProgress, c.now), Wait(REQUEUE_INTERVAL))
    else if launched then
      if Overdue(st.conditions, BackupCompleted, ConditionUnknown, BACKUP_GIVE_UP_AFTER, c.now) then
        Go(c, WithCond(st, BackupCompleted, ConditionFalse, BackupTimedOut, c.now), Wait(0))
      else Go(c, st, Wait(REQUEUE_INTERVAL))
    else
      var (c1, ok) := TriggerBackup(c, p.trigger, p.backupName);
      if !Alive(p.trigger) then Go(c1, st, Dead)
      else if !ok then Go(c1, WithCond(st, BackupCompleted, ConditionFalse, BackupTriggerFailed, c1.now), Wait(0))
      else Go(c1, WithCond(st, BackupCompleted, ConditionUnknown, InProgress, c1.now), Wait(REQUEUE_INTERVAL))
  }

  function BackupStep(c: Cluster, copy: CR, st: Status, p: Pass): Go {
    var (c1, look) := LookAtNamespace(c, p.firstLook);
    var st1 := AtStage(st, BackupPending);
    if !Alive(p.firstLook) then Go(c1, st1, Dead)
    else if look == SawAbsent then Go(c1, WithCond(st1, BackupCompleted, ConditionTrue, NothingToBackUp, c1.now), Continue)
    else if OverrideDisarms(copy.override) then
      Go(c1, WithCond(st1, BackupCompleted, ConditionFalse, BackupOverridden, c1.now), Continue)
    else
      var launched := HasReason(st1.conditions, BackupCompleted, InProgress);
      var (c2, seen) := InspectBackups(c1, p.inspect, copy.deletedAt);
      if !Alive(p.inspect) then Go(c2, st1, Dead)
      else if seen == None then
        Go(c2, if launched then st1 else WithCond(st1, BackupCompleted, ConditionUnknown, BackupUnknown, c2.now), Error)
      else Judged(c2, copy, st1, seen.value, launched, p)
  }

  // ---- protection of the namespace, teardown, removal ----

  function Conclusion(c: Cluster, st: Status, look: Look): Go {
    match look
    case SawAbsent =>
      Go(c, WithCond(WithCond(st, NamespaceRemoved, ConditionTrue, NamespaceGone, c.now),
                     Ready, ConditionFalse, Deleted, c.now), Continue)
    case Unreadable => Go(c, WithCond(st, NamespaceRemoved, ConditionFalse, NamespaceStateUnknown, c.now), Wait(STEP_REQUEUE))
    case SawLive => Go(c, WithCond(st, NamespaceRemoved, ConditionFalse, NamespaceTerminating, c.now), Wait(STEP_REQUEUE))
    case SawTerminating(since) =>
      if c.now - since > NAMESPACE_GIVE_UP_AFTER then
        Go(c, WithCond(WithCond(st, NamespaceRemoved, ConditionUnknown, RemovalUnconfirmed, c.now),
                       Ready, ConditionFalse, Deleted, c.now), Continue)
      else Go(c, WithCond(st, NamespaceRemoved, ConditionFalse, NamespaceTerminating, c.now), Wait(STEP_REQUEUE))
  }

  function RemovalStep(c: Cluster, st: Status, p: Pass): Go {
    var (c1, look) := LookAtNamespace(c, p.look);
    if !Alive(p.look) then Go(c1, st, Dead)
    else if look != SawLive then Conclusion(c1, st, look)
    else
      var (c2, ok) := DeleteNamespace(c1, p.delete);
      if !Alive(p.delete) then Go(c2, st, Dead)
      else if !ok then Go(c2, WithCond(st, Ready, ConditionFalse, NamespaceDeletionForbidden, c2.now), Error)
      else
        var (c3, again) := LookAtNamespace(c2, p.lookAgain);
        if !Alive(p.lookAgain) then Go(c3, st, Dead) else Conclusion(c3, st, again)
  }

  function TeardownStep(c: Cluster, st: Status, p: Pass): Go {
    var (c1, ok) := Teardown(c, p.teardown);
    if !Alive(p.teardown) then Go(c1, st, Dead)
    else if !ok then Go(c1, WithCond(st, Ready, ConditionFalse, TeardownFailed, c1.now), Error)
    else RemovalStep(c1, AtStage(st, Destroying), p)
  }

  function FinalStep(c: Cluster, st: Status, p: Pass): Go {
    var (c1, protected) := GetProtection(c, p.protection);
    var st1 := AtStage(st, ProtectionRemoval);
    if !Alive(p.protection) then Go(c1, st1, Dead)
    else if protected == None then
      Go(c1, WithCond(st1, Ready, ConditionFalse, ProtectionUnknown, c1.now), Wait(STEP_REQUEUE))
    else if protected.value then
      var (c2, ok) := LiftProtection(c1, p.lift);
      if !Alive(p.lift) then Go(c2, st1, Dead)
      else if !ok then Go(c2, WithCond(st1, Ready, ConditionFalse, ProtectionRemovalFailed, c2.now), Error)
      else TeardownStep(c2, st1.(protectionEnabled := false), p)
    else TeardownStep(c1, st1.(protectionEnabled := false), p)
  }

  // ---- the sequence and the pass ----

  datatype Step = CheckProtection | TearRancher | DemandBackup | TearDown

  const STEPS := [CheckProtection, TearRancher, DemandBackup, TearDown]

  function DoStep(step: Step, c: Cluster, copy: CR, st: Status, p: Pass): Go {
    match step
    case CheckProtection => ProtectionStep(c, copy, st)
    case TearRancher => RancherStep(c, copy, st, p)
    case DemandBackup => BackupStep(c, copy, st, p)
    case TearDown => FinalStep(c, st, p)
  }

  function RunSteps(steps: seq<Step>, c: Cluster, copy: CR, st: Status, p: Pass): Go {
    if steps == [] then Go(c, st, Continue)
    else
      var g := DoStep(steps[0], c, copy, st, p);
      if g.v == Continue then RunSteps(steps[1..], g.c, copy, g.st, p) else g
  }

  /** The copy a pass works from: the stored object, or an older one. */
  function Copy(c: Cluster, p: Pass): CR {
    if p.stale.Some? && p.stale.value.version < c.cr.version
       && p.stale.value.deletedAt == c.cr.deletedAt && p.stale.value.wellPlaced == c.cr.wellPlaced
    then p.stale.value
    else c.cr
  }

  function Opening(st: Status): Status {
    st.(deletion := Some(if st.deletion.Some? then st.deletion.value else DeletionStatus(None, NoStage)), phase := Deleting)
  }

  /** Storing the outcome of the sequence, and releasing the object when it is over. */
  function Closing(g: Go, version: nat, p: Pass): (Cluster, Verdict) {
    if g.v == Dead then (g.c, Dead)
    else
      var (c1, stored) := StoreStatus(g.c, p.store, version, g.st);
      if !Alive(p.store) then (c1, Dead)
      else if !stored then (c1, Error)
      else if g.v != Continue then (c1, g.v)
      else
        var (c2, released) := Release(c1, p.release, version + 1);
        (c2, if !Alive(p.release) then Dead else if released then Continue else Error)
  }

  function Reconcile(c: Cluster, p: Pass): (Cluster, Verdict) {
    var c := HappenAll(c, p.idle);
    var copy := Copy(c, p);
    if !copy.finalizer then (c, Continue)
    else if !copy.wellPlaced then
      var (c1, released) := Release(c, p.release, copy.version);
      (c1, if !Alive(p.release) then Dead else if released then Continue else Error)
    else
      var begun := Logged(c, Started(!copy.spec.deletionProtection, copy.override));
      Closing(RunSteps(STEPS, begun, copy, Opening(copy.status), p), copy.version, p)
  }

  /** The finalizer, working on the object it read (`vc`) and on the outside (`c`). */
  class VClusterReconciler {
    var c: Cluster

    constructor (c: Cluster)
      ensures this.c == c
    {
      this.c := c;
    }

    method CheckDeletionProtection(vc: VCluster, copy: CR) returns (v: Verdict)
      requires vc.deletion.Some? && vc.spec == copy.spec
      modifies vc`conditions, vc`deletion
      ensures Go(c, vc.View(), v) == ProtectionStep(c, copy, old(vc.View()))
      ensures vc.deletion.Some?
      ensures v == (if copy.spec.deletionProtection then Wait(0) else Continue)
      ensures v == Wait(0) ==>
                HasStatus(vc.conditions, Ready, ConditionFalse) && HasReason(vc.conditions, Ready, DeletionProtectionBlocked)
      ensures HasStatus(vc.conditions, DeletionProtected, if v == Wait(0) then ConditionTrue else ConditionFalse)
    {
      hide Set, Find;
      if !vc.spec.deletionProtection {
        vc.SetCond(DeletionProtected, ConditionFalse, ProtectionLifted, c.now);
        return Continue;
      }
      vc.deletion := Some(vc.deletion.value.(stage := Blocked));
      vc.SetCond(DeletionProtected, ConditionTrue, DeletionProtectionBlocked, c.now);
      vc.SetCond(Ready, ConditionFalse, DeletionProtectionBlocked, c.now);
      return Wait(0);
    }

    method ReconcileRancherTeardown(vc: VCluster, copy: CR, p: Pass) returns (v: Verdict)
      requires vc.deletion.Some?
      modifies this, vc
      ensures Go(c, vc.View(), v) == RancherStep(old(c), copy, old(vc.View()), p)
      ensures vc.spec == old(vc.spec) && vc.deletion.Some?
    {
      hide Set, Find, InspectRancher, Unpair;
      var (c1, seen) := InspectRancher(c, p.rancher);
      c := c1;
      if !Alive(p.rancher) {
        return Dead;
      }
      if seen.notConfigured {
        vc.SetCond(RancherPaired, ConditionUnknown, NoRancherClient, c.now);
        return Continue;
      }
      if !seen.enabled {
        return Continue;
      }
      vc.deletion := Some(vc.deletion.value.(stage := RancherUnpairing));
      if seen.lookupFailed || seen.stillKnown {
        if Overdue(vc.conditions, RancherPaired, ConditionTrue, RANCHER_GIVE_UP_AFTER, c.now) {
          var reason := UnpairTimedOut;
          if seen.lookupFailed {
            reason := UnpairUnconfirmed;
          }
          vc.SetCond(RancherPaired, ConditionUnknown, reason, c.now);
          return Continue;
        }
        var (c2, ok) := Unpair(c, p.unpair);
        c := c2;
        if !Alive(p.unpair) {
          return Dead;
        }
        if !ok {
          vc.SetCond(RancherPaired, ConditionTrue, UnpairFailed, c.now);
          return Error;
        }
        vc.SetCond(RancherPaired, ConditionTrue, Unpairing, c.now);
        return Wait(STEP_REQUEUE);
      }
      if seen.cleanup.found && !seen.cleanup.done && !seen.cleanup.failed {
        if c.now - Anchor(seen.cleanup.startedAt, copy.deletedAt) > RANCHER_GIVE_UP_AFTER {
          vc.SetCond(RancherPaired, ConditionFalse, CleanupTimedOut, c.now);
          return Continue;
        }
        vc.SetCond(RancherPaired, ConditionFalse, CleanupRunning, c.now);
        return Wait(STEP_REQUEUE);
      }
      if seen.cleanup.failed {
        vc.SetCond(RancherPaired, ConditionFalse, CleanupFailed, c.now);
      } else if !seen.cleanup.observable {
        vc.SetCond(RancherPaired, ConditionFalse, UnpairedCleanupUnobserved, c.now);
      } else {
        vc.SetCond(RancherPaired, ConditionFalse, Unpaired, c.now);
      }
      return Continue;
    }

    method ReconcileDeletionBackup(vc: VCluster, copy: CR, p: Pass) returns (v: Verdict)
      requires vc.deletion.Some?
      modifies this, vc
      ensures Go(c, vc.View(), v) == BackupStep(old(c), copy, old(vc.View()), p)
      ensures vc.spec == old(vc.spec) && vc.deletion.Some?
    {
      hide Set, Find, LookAtNamespace, InspectBackups, Judged, OverrideDisarms, HasReason;
      vc.deletion := Some(vc.deletion.value.(stage := BackupPending));
      var (c1, look) := LookAtNamespace(c, p.firstLook);
      c := c1;
      if !Alive(p.firstLook) {
        return Dead;
      }
      if look == SawAbsent {
        vc.SetCond(BackupCompleted, ConditionTrue, NothingToBackUp, c.now);
        return Continue;
      }
      if OverrideDisarms(copy.override) {
        vc.SetCond(BackupCompleted, ConditionFalse, BackupOverridden, c.now);
        return Continue;
      }
      var launched := HasReason(vc.conditions, BackupCompleted, InProgress);
      var (c2, seen) := InspectBackups(c, p.inspect, copy.deletedAt);
      c := c2;
      if !Alive(p.inspect) {
        return Dead;
      }
      if seen == None {
        if !launched {
          vc.SetCond(BackupCompleted, ConditionUnknown, BackupUnknown, c.now);
        }
        return Error;
      }
      v := ActOnBackup(vc, copy, seen.value, launched, p);
    }

    method ActOnBackup(vc: VCluster, copy: CR, seen: DeletionBackup, launched: bool, p: Pass) returns (v: Verdict)
      modifies this, vc`conditions
      ensures Go(c, vc.View(), v) == Judged(old(c), copy, old(vc.View()), seen, launched, p)
    {
      hide Set, Find, TriggerBackup;
      if seen.completed {
        vc.SetCond(BackupCompleted, ConditionTrue, Reason.Completed, c.now);
        return Continue;
      }
      if seen.failed {
        vc.SetCond(BackupCompleted, ConditionFalse, BackupFailed, c.now);
        return Wait(0);
      }
      if seen.found {
        if c.now - Anchor(seen.startedAt, copy.deletedAt) > BACKUP_GIVE_UP_AFTER {
          vc.SetCond(BackupCompleted, ConditionFalse, BackupTimedOut, c.now);
          return Wait(0);
        }
        vc.SetCond(BackupCompleted, ConditionUnknown, InProgress, c.now);
        return Wait(REQUEUE_INTERVAL);
      }
      if launched {
        if Overdue(vc.conditions, BackupCompleted, ConditionUnknown, BACKUP_GIVE_UP_AFTER, c.now) {
          vc.SetCond(BackupCompleted, ConditionFalse, BackupTimedOut, c.now);
          return Wait(0);
        }
        return Wait(REQUEUE_INTERVAL);
      }
      var (c1, ok) := TriggerBackup(c, p.trigger, p.backupName);
      c := c1;
      if !Alive(p.trigger) {
        return Dead;
      }
      if !ok {
        vc.SetCond(BackupCompleted, ConditionFalse, BackupTriggerFailed, c.now);
        return Wait(0);
      }
      vc.SetCond(BackupCompleted, ConditionUnknown, InProgress, c.now);
      return Wait(REQUEUE_INTERVAL);
    }

    method ReconcileFinalTeardownAndNamespaceRemoval(vc: VCluster, p: Pass) returns (v: Verdict)
      requires vc.deletion.Some?
      modifies this, vc
      ensures Go(c, vc.View(), v) == FinalStep(old(c), old(vc.View()), p)
      ensures vc.spec == old(vc.spec) && vc.deletion.Some?
    {
      hide Set, Find, GetProtection, LiftProtection, TeardownStep;
      vc.deletion := Some(vc.deletion.value.(stage := ProtectionRemoval));
      var (c1, protected) := GetProtection(c, p.protection);
      c := c1;
      if !Alive(p.protection) {
        return Dead;
      }
      if protected == None {
        vc.SetCond(Ready, ConditionFalse, ProtectionUnknown, c.now);
        return Wait(STEP_REQUEUE);
      }
      if protected.value {
        var (c2, ok) := LiftProtection(c, p.lift);
        c := c2;
        if !Alive(p.lift) {
          return Dead;
        }
        if !ok {
          vc.SetCond(Ready, ConditionFalse, ProtectionRemovalFailed, c.now);
          return Error;
        }
      }
      vc.protectionEnabled := false;
      v := TearDownAndRemove(vc, p);
    }

    method TearDownAndRemove(vc: VCluster, p: Pass) returns (v: Verdict)
      requires vc.deletion.Some?
      modifies this, vc`conditions, vc`deletion
      ensures Go(c, vc.View(), v) == TeardownStep(old(c), old(vc.View()), p)
      ensures vc.deletion.Some?
    {
      hide Set, Find, Teardown, LookAtNamespace, DeleteNamespace, Conclusion;
      var (c1, torn) := Teardown(c, p.teardown);
      c := c1;
      if !Alive(p.teardown) {
        return Dead;
      }
      if !torn {
        vc.SetCond(Ready, ConditionFalse, TeardownFailed, c.now);
        return Error;
      }
      vc.deletion := Some(vc.deletion.value.(stage := Destroying));
      var (c2, look) := LookAtNamespace(c, p.look);
      c := c2;
      if !Alive(p.look) {
        return Dead;
      }
      if look == SawLive {
        var (c3, ok) := DeleteNamespace(c, p.delete);
        c := c3;
        if !Alive(p.delete) {
          return Dead;
        }
        if !ok {
          vc.SetCond(Ready, ConditionFalse, NamespaceDeletionForbidden, c.now);
          return Error;
        }
        var (c4, again) := LookAtNamespace(c, p.lookAgain);
        c := c4;
        if !Alive(p.lookAgain) {
          return Dead;
        }
        look := again;
      }
      v := Conclude(vc, look);
    }

    method Conclude(vc: VCluster, look: Look) returns (v: Verdict)
      modifies vc`conditions
      ensures Go(c, vc.View(), v) == Conclusion(c, old(vc.View()), look)
    {
      hide Set, Find;
      if look == SawAbsent {
        vc.SetCond(NamespaceRemoved, ConditionTrue, NamespaceGone, c.now);
        vc.SetCond(Ready, ConditionFalse, Deleted, c.now);
        return Continue;
      }
      if look == Unreadable {
        vc.SetCond(NamespaceRemoved, ConditionFalse, NamespaceStateUnknown, c.now);
        return Wait(STEP_REQUEUE);
      }
      if look.SawTerminating? && c.now - look.since > NAMESPACE_GIVE_UP_AFTER {
        vc.SetCond(NamespaceRemoved, ConditionUnknown, RemovalUnconfirmed, c.now);
        vc.SetCond(Ready, ConditionFalse, Deleted, c.now);
        return Continue;
      }
      vc.SetCond(NamespaceRemoved, ConditionFalse, NamespaceTerminating, c.now);
      return Wait(STEP_REQUEUE);
    }

    method RunDeletionSequence(vc: VCluster, copy: CR, p: Pass) returns (v: Verdict)
      requires vc.deletion.Some? && vc.spec == copy.spec
      modifies this, vc
      ensures Go(c, vc.View(), v) == RunSteps(STEPS, old(c), copy, old(vc.View()), p)
    {
      hide ProtectionStep, RancherStep, BackupStep, FinalStep;
      for i := 0 to |STEPS|
        invariant vc.deletion.Some? && vc.spec == copy.spec
        invariant RunSteps(STEPS[i..], c, copy, vc.View(), p) == RunSteps(STEPS, old(c), copy, old(vc.View()), p)
      {
        ghost var rest, c0, st0 := STEPS[i..], c, vc.View();
        assert rest[0] == STEPS[i] && rest[1..] == STEPS[i + 1..];
        match STEPS[i] {
        case CheckProtection => v := CheckDeletionProtection(vc, copy);
        case TearRancher => v := ReconcileRancherTeardown(vc, copy, p);
        case DemandBackup => v := ReconcileDeletionBackup(vc, copy, p);
        case TearDown => v := ReconcileFinalTeardownAndNamespaceRemoval(vc, p);
        }
        assert Go(c, vc.View(), v) == DoStep(STEPS[i], c0, copy, st0, p);
        assert RunSteps(rest, c0, copy, st0, p) ==
               if v == Continue then RunSteps(rest[1..], c, copy, vc.View(), p) else Go(c, vc.View(), v);
        if v != Continue {
          return;
        }
      }
      return Continue;
    }

    /** The status goes before the finalizer: after it, there is no object to write on. */
    method ReconcileDeletion(p: Pass) returns (v: Verdict)
      modifies this
      ensures (c, v) == Reconcile(old(c), p)
    {
      hide RunSteps, StoreStatus, Release, HappenAll, OverrideDisarms;
      c := HappenAll(c, p.idle);
      var copy := Copy(c, p);
      if !copy.finalizer {
        return Continue;
      }
      if !copy.wellPlaced {
        var (c1, released) := Release(c, p.release, copy.version);
        c := c1;
        return if !Alive(p.release) then Dead else if released then Continue else Error;
      }
      var vc := new VCluster("", copy.spec, copy.status);
      if vc.deletion == None {
        vc.deletion := Some(DeletionStatus(None, NoStage));
      }
      vc.phase := Deleting;
      c := Logged(c, Started(!copy.spec.deletionProtection, copy.override));
      v := RunDeletionSequence(vc, copy, p);
      if v == Dead {
        return;
      }
      var (c1, stored) := StoreStatus(c, p.store, copy.version, vc.View());
      c := c1;
      if !Alive(p.store) {
        return Dead;
      }
      if !stored {
        return Error;
      }
      if v != Continue {
        return;
      }
      var (c2, released) := Release(c, p.release, copy.version + 1);
      c := c2;
      return if !Alive(p.release) then Dead else if released then Continue else Error;
    }
  }

  /** A run of passes, each starting where the one before left the world. */
  function Run(c: Cluster, ps: seq<Pass>): Cluster {
    if ps == [] then c else Reconcile(Run(c, ps[..|ps| - 1]), ps[|ps| - 1]).0
  }
}
