/**
 The reconciler of the marker: reserves a restore request in the status before acting on
 it, then follows, adopts, aborts or leaves what became of it. Backups ride along.
 */
module RestoreController {
  import opened Wrappers
  import opened Turns
  import BackupSelection
  import opened Conditions
  import VClusters
  import opened RestoreWorld
  import opened RestoreSequence

  const REQUEUE_INTERVAL := 10
  const RESUME_GIVE_UP_AFTER := 7200

  /** A turn for every call of a pass. `copy` is the version of the marker it works from,
      the current one if none or out of range. `idle` happens before the pass begins. */
  datatype Pass = Pass(
    idle: seq<Event>, copy: Option<nat>,
    reserve: Turn, sequence: Calls,
    interruptedEtcd: Turn, interruptedControlPlane: Turn, interruptedVolume: Turn, interruptedList: Turn,
    getRestore: Turn,
    consume: Turn, trigger: Turn, getBackup: Turn, backupName: string,
    store: Turn)

  /** The marker a pass works on, in memory: what it read, the version its next status
      update is based on, and the status it is making. */
  datatype Local = Local(read: Marker, version: nat, st: OpsStatus)

  /** How a stage of a pass ends: the delay it wants (0: none), an error, or killed. */
  datatype End = Wants(requeue: nat) | Errs(requeue: nat) | Dies

  function Delay(e: End): nat {
    match e case Wants(requeue) => requeue case Errs(requeue) => requeue case Dies => 0
  }

  datatype Step = Step(c: Site, l: Local, end: End)

  function WithCond(st: OpsStatus, kind: CondType, status: ConditionStatus, reason: Reason, now: int): OpsStatus {
    st.(conditions := Set(st.conditions, kind, status, reason, now))
  }

  function WithRestore(st: OpsStatus, r: RestoreStatus): OpsStatus {
    st.(restore := r)
  }

  /** Stores the local status, and moves on to the version it made. */
  function Store(c: Site, t: Turn, l: Local): (Site, Local, Flow) {
    var (c1, f) := StoreStatus(c, t, l.version, l.st);
    (c1, if f == Fine then l.(version := l.version + 1) else l, f)
  }

  // ---- starting ----

  predicate WantsRestore(l: Local) {
    l.read.restoreAsk != "" && l.read.restoreAsk != l.st.restore.handled
  }

  /** A restore is being followed that has not ended. */
  predicate Busy(r: RestoreStatus) {
    r.name != "" && !IsTerminalRestorePhase(r.phase)
  }

  function Reservation(m: Marker, st: OpsStatus, now: int): OpsStatus {
    var conds := Remove(Remove(st.conditions, RestoreRejectedBusy), RestoreNeedsRetry);
    OpsStatus(
      RestoreStatus(m.restoreAsk, m.fromBackup, m.target, true, "", "New", false, false, false, None),
      st.backup,
      Set(conds, RestoreInProgress, ConditionTrue, Requested, now))
  }

  /** The outcome of the sequence, as the status tells it. */
  function Recorded(st: OpsStatus, r: Result, now: int): OpsStatus {
    match r
    case Made(name) => WithRestore(st, st.restore.(name := name, phase := "New", inPlace := true))
    case StageFailureVolumeGone =>
      WithCond(WithCond(WithRestore(st, st.restore.(phase := "Failed", volumeDestroyed := true)),
                        RestoreInProgress, ConditionFalse, StageFailed, now),
               RestoreNeedsRetry, ConditionTrue, VolumeGone, now)
    case StageFailure =>
      WithCond(WithCond(WithRestore(st, st.restore.(phase := "Failed")), RestoreInProgress, ConditionFalse, StageFailed, now),
               RestoreNeedsRetry, ConditionTrue, StageFailed, now)
    case _ => WithCond(WithRestore(st, st.restore.(phase := "Failed")), RestoreInProgress, ConditionFalse, StageFailed, now)
  }

  /** The reservation is stored: now the sequence is called, and its outcome recorded. */
  function CallSequence(c: Site, name: string, l: Local, p: Pass): Step {
    var g := Create(Logged(c, Called(l.read.restoreAsk)), name, l.read.fromBackup, l.read.target, p.sequence);
    if g.r == Died then Step(g.c, l, Dies)
    else Step(g.c, l.(st := Recorded(l.st, g.r, g.c.now)), Wants(if g.r.Made? then REQUEUE_INTERVAL else 0))
  }

  function StartRestore(c: Site, name: string, l: Local, p: Pass): Step {
    if Busy(l.st.restore) then
      Step(c, l.(st := WithCond(l.st, RestoreRejectedBusy, ConditionTrue, AlreadyRunning, c.now)), Wants(REQUEUE_INTERVAL))
    else if l.read.target != "" && l.read.target != name then
      Step(c, l.(st := WithCond(WithRestore(l.st, l.st.restore.(handled := l.read.restoreAsk)),
                                Accepted, ConditionFalse, TargetOutsideMarker, c.now)), Wants(0))
    else
      var (c1, l1, f) := Store(c, p.reserve, l.(st := Reservation(l.read, l.st, c.now)));
      match f
      case Dead => Step(c1, l1, Dies)
      case Fault => Step(c1, l1, Errs(0))
      case Fine => CallSequence(c1, name, l1, p)
  }

  // ---- recovering ----

  /** What the cluster says of an interrupted sequence. */
  datatype Leftover = Leftover(volumeGone: bool, active: Option<Restore>)

  function InspectInterrupted(c: Site, p: Pass): (Site, Flow, Leftover) {
    var (c1, f1, v) := ReadVolume(c, p.interruptedEtcd, p.interruptedControlPlane, p.interruptedVolume);
    if f1 != Fine then (c1, f1, Leftover(false, None))
    else
      var (c2, f2, active) := ListActive(c1, p.interruptedList);
      (c2, f2, Leftover(v != Bound, active))
  }

  function Recover(c: Site, l: Local, p: Pass): Step {
    var (c1, f, seen) := InspectInterrupted(c, p);
    var r := l.st.restore;
    if f == Dead then Step(c1, l, Dies)
    else if f == Fault then Step(c1, l, Errs(REQUEUE_INTERVAL))
    else if seen.active.Some? then
      Step(c1, l.(st := WithCond(WithRestore(l.st, r.(name := seen.active.value.name, phase := seen.active.value.phase)),
                                 RestoreInProgress, ConditionTrue, Adopted, c1.now)), Wants(REQUEUE_INTERVAL))
    else if seen.volumeGone then
      Step(c1, l.(st := WithCond(WithCond(WithRestore(l.st, r.(volumeDestroyed := true, phase := "Failed")),
                                          RestoreInProgress, ConditionFalse, Reason.Interrupted, c1.now),
                                 RestoreNeedsRetry, ConditionTrue, VolumeGoneNoRestore, c1.now)), Wants(0))
    else
      var (c2, f2) := SetFluxSuspend(c1, p.sequence.resumeHelm, p.sequence.resumeKustomization, false);
      match f2
      case Dead => Step(c2, l, Dies)
      case Fault =>
        Step(c2, l.(st := WithCond(l.st, RestoreNeedsRetry, ConditionTrue, AbortFailed, c2.now)), Errs(REQUEUE_INTERVAL))
      case Fine =>
        Step(c2, l.(st := WithCond(WithCond(WithRestore(l.st, r.(phase := "Failed")),
                                            RestoreInProgress, ConditionFalse, Aborted, c2.now),
                                   RestoreNeedsRetry, ConditionTrue, InterruptedBeforePointOfNoReturn, c2.now)), Wants(0))
  }

  // ---- following ----

  datatype View = View(phase: string, resumePending: bool, volumeDestroyed: bool)

  /** GetVeleroRestoreStatus: polls a restore, and once it has ended puts Flux back, unless
      this process knows it did. */
  function PollRestore(c: Site, name: string, inPlace: bool, p: Pass): (Site, Flow, View) {
    var (c1, phase) := GetRestorePhase(c, p.getRestore, name);
    if !Alive(p.getRestore) then (c1, Dead, View("", false, false))
    else if phase == None then (c1, Fault, View("", false, false))
    else
      var lost := inPlace && phase.value == "Failed";
      if inPlace && IsTerminalRestorePhase(phase.value) && name !in c1.resolved then
        var (c2, f) := SetFluxSuspend(c1, p.sequence.resumeHelm, p.sequence.resumeKustomization, false);
        match f
        case Dead => (c2, Dead, View("", false, false))
        case Fault => (c2, Fine, View(phase.value, true, lost))
        case Fine => (c2.(resolved := c2.resolved + {name}), Fine, View(phase.value, false, lost))
      else (c1, Fine, View(phase.value, false, lost))
  }

  /** What a polled view makes of the status, and of the wait. */
  function Followed(st: OpsStatus, v: View, now: int): (OpsStatus, nat) {
    var r := st.restore.(phase := v.phase, resumePending := v.resumePending, resumeFailed := false,
                         volumeDestroyed := v.volumeDestroyed);
    if !IsTerminalRestorePhase(v.phase) then
      (WithCond(WithRestore(st, r), RestoreInProgress, ConditionTrue, InProgress, now), REQUEUE_INTERVAL)
    else
      var first := if r.firstTerminalAt.Some? then r.firstTerminalAt.value else now;
      var r1 := r.(firstTerminalAt := Some(first));
      if v.resumePending then
        if now - first > RESUME_GIVE_UP_AFTER then
          (WithCond(WithRestore(st, r1.(resumeFailed := true, resumePending := false)),
                    FluxResumePending, ConditionTrue, ResumeGaveUp, now), 0)
        else
          (WithCond(WithRestore(st, r1), FluxResumePending, ConditionTrue, ResumePending, now), REQUEUE_INTERVAL)
      else
        var told := WithCond(WithCond(WithRestore(st, r1), FluxResumePending, ConditionFalse, Resumed, now),
                             RestoreInProgress, ConditionFalse,
                             if v.phase == "Completed" then Reason.Completed else Reason.Failed, now);
        (if v.volumeDestroyed then WithCond(told, RestoreNeedsRetry, ConditionTrue, VolumeDestroyed, now) else told, 0)
  }

  function FollowRestore(c: Site, l: Local, p: Pass): Step {
    var r := l.st.restore;
    if IsTerminalRestorePhase(r.phase) && !r.resumePending then Step(c, l, Wants(0))
    else
      var (c1, f, v) := PollRestore(c, r.name, r.inPlace, p);
      match f
      case Dead => Step(c1, l, Dies)
      case Fault => Step(c1, l, Errs(REQUEUE_INTERVAL))
      case Fine =>
        var (st, requeue) := Followed(l.st, v, c1.now);
        Step(c1, l.(st := st), Wants(requeue))
  }

  function ReconcileRestore(c: Site, name: string, l: Local, p: Pass): Step {
    var r := l.st.restore;
    if WantsRestore(l) then StartRestore(c, name, l, p)
    else if r.name != "" then FollowRestore(c, l, p)
    else if r.handled != "" && r.phase == "New" then Recover(c, l, p)
    else Step(c, l, Wants(0))
  }

  // ---- backups ----

  predicate WantsBackup(l: Local) {
    l.read.backupAsk != "" && l.read.backupAsk != l.st.backup.handled
  }

  function TriggerVeleroBackup(c: Site, t: Turn, ask: string, name: string): (Site, Flow) {
    var c := At(c, t);
    (if TakesEffect(t) then Logged(c.(backups := c.backups[name := ""]), TriggeredBackup(ask)) else c, FlowOf(t))
  }

  /** The request is consumed: now the backup is asked for. */
  function TakeBackup(c: Site, l: Local, p: Pass): Step {
    var (c1, made) := TriggerVeleroBackup(c, p.trigger, l.read.backupAsk, p.backupName);
    match made
    case Dead => Step(c1, l, Dies)
    case Fault =>
      Step(c1, l.(st := WithCond(l.st.(backup := l.st.backup.(phase := "Failed")),
                                 BackupCompleted, ConditionFalse, TriggerFailed, c1.now)), Wants(0))
    case Fine =>
      Step(c1, l.(st := WithCond(l.st.(backup := l.st.backup.(name := p.backupName)),
                                 BackupCompleted, ConditionUnknown, InProgress, c1.now)), Wants(REQUEUE_INTERVAL))
  }

  function ReconcileBackup(c: Site, l: Local, p: Pass): Step {
    var b := l.st.backup;
    if WantsBackup(l) then
      var (c1, l1, f) := Store(c, p.consume, l.(st := l.st.(backup := BackupStatus(l.read.backupAsk, "", "New"))));
      match f
      case Dead => Step(c1, l1, Dies)
      case Fault => Step(c1, l1, Errs(0))
      case Fine => TakeBackup(c1, l1, p)
    else if b.name == "" || BackupSelection.IsTerminalBackupPhase(b.phase) then Step(c, l, Wants(0))
    else
      var (c1, read) := GetBackupPhase(c, p.getBackup, b.name);
      if !Alive(p.getBackup) then Step(c1, l, Dies)
      else if read == None then Step(c1, l, Errs(REQUEUE_INTERVAL))
      else
        var phase := read.value;
        var st := l.st.(backup := b.(phase := phase));
        if phase == "Completed" then
          Step(c1, l.(st := WithCond(st, BackupCompleted, ConditionTrue, Reason.Completed, c1.now)), Wants(0))
        else if BackupSelection.IsTerminalBackupPhase(phase) then
          Step(c1, l.(st := WithCond(st, BackupCompleted, ConditionFalse, Reason.Failed, c1.now)), Wants(0))
        else Step(c1, l.(st := st), Wants(REQUEUE_INTERVAL))
  }

  // ---- the pass ----

  /** The version of the marker a pass works from. */
  function Version(c: Site, p: Pass): nat
    requires c.markers != []
  {
    if p.copy.Some? && p.copy.value < |c.markers| then p.copy.value else |c.markers| - 1
  }

  function Opened(c: Site, p: Pass): Local
    requires c.markers != []
  {
    var m := c.markers[Version(c, p)];
    Local(m, Version(c, p), m.status)
  }

  /** A killed process takes its memory with it. */
  function Forgotten(c: Site): Site {
    c.(resolved := {})
  }

  /** The pass's last status write, and the delay it asks for. */
  function Finish(c: Site, l: Local, restoring: End, saving: End, p: Pass): (Site, End) {
    var (c1, l1, f) := Store(c, p.store, l);
    if f == Dead then (Forgotten(c1), Dies)
    else if f == Fault || restoring.Errs? || saving.Errs? then (c1, Errs(0))
    else (c1, Wants(Soonest(Delay(restoring), Delay(saving))))
  }

  function Reconcile(c: Site, name: string, p: Pass): (Site, End) {
    var c := HappenAll(c, p.idle);
    if c.markers == [] then (c, Wants(0))
    else
      var s1 := ReconcileRestore(c, name, Opened(c, p), p);
      if s1.end == Dies then (Forgotten(s1.c), Dies)
      else
        var s2 := ReconcileBackup(s1.c, s1.l, p);
        if s2.end == Dies then (Forgotten(s2.c), Dies)
        else Finish(s2.c, s2.l, s1.end, s2.end, p)
  }

  /** A marker only speaks for the vcluster whose namespace it lives in. */
  predicate Placed(name: string, namespace: string) {
    VClusters.ValidName(name) && namespace == VClusters.HostNamespace(name)
  }

  /** A misplaced marker is told so, before any of its annotations is read. */
  function Refuse(c: Site, p: Pass): (Site, End) {
    var c := HappenAll(c, p.idle);
    if c.markers == [] then (c, Wants(0))
    else
      var l := Opened(c, p);
      Finish(c, l.(st := WithCond(l.st, Accepted, ConditionFalse, NamespaceMismatch, c.now)), Wants(0), Wants(0), p)
  }

  /** A pass over a marker, wherever it lives. */
  function ReconcileAnywhere(c: Site, name: string, namespace: string, p: Pass): (Site, End) {
    if Placed(name, namespace) then Reconcile(c, name, p) else Refuse(c, p)
  }

  // ---- the reconciler itself ----

  /** The marker object a pass works on. */
  class VeleroOps {
    const read: Marker
    var version: nat
    var restore: RestoreStatus
    var backup: BackupStatus
    var conditions: seq<Condition>

    constructor (l: Local)
      ensures View() == l
    {
      read, version := l.read, l.version;
      restore, backup, conditions := l.st.restore, l.st.backup, l.st.conditions;
    }

    function View(): Local
      reads this
    {
      Local(read, version, OpsStatus(restore, backup, conditions))
    }

    method SetCond(kind: CondType, status: ConditionStatus, reason: Reason, now: int)
      modifies this`conditions
      ensures conditions == Set(old(conditions), kind, status, reason, now)
    {
      conditions := Set(conditions, kind, status, reason, now);
    }
  }

  class VeleroOpsReconciler {
    const svc: Service
    const name: string
    const namespace: string

    constructor (svc: Service, name: string, namespace: string)
      ensures this.svc == svc && this.name == name && this.namespace == namespace
    {
      this.svc, this.name, this.namespace := svc, name, namespace;
    }

    method UpdateStatus(ops: VeleroOps, t: Turn) returns (f: Flow)
      modifies svc, ops`version
      ensures (svc.c, ops.View(), f) == Store(old(svc.c), t, old(ops.View()))
    {
      hide StoreStatus;
      var (c1, stored) := StoreStatus(svc.c, t, ops.version, OpsStatus(ops.restore, ops.backup, ops.conditions));
      svc.c := c1;
      f := stored;
      if f == Fine {
        ops.version := ops.version + 1;
      }
    }

    method RecordOutcome(ops: VeleroOps, r: Result, now: int)
      modifies ops`restore, ops`conditions
      ensures ops.View() == old(ops.View()).(st := Recorded(old(ops.View()).st, r, now))
      ensures ops.restore.volumeDestroyed <==> old(ops.restore.volumeDestroyed) || r == StageFailureVolumeGone
      ensures ops.restore.phase == "Failed" <==> !r.Made?
    {
      hide Set, Find;
      if r.Made? {
        ops.restore := ops.restore.(name := r.name, phase := "New", inPlace := true);
        return;
      }
      ops.restore := ops.restore.(phase := "Failed");
      ops.SetCond(RestoreInProgress, ConditionFalse, StageFailed, now);
      if r == StageFailureVolumeGone {
        ops.restore := ops.restore.(volumeDestroyed := true);
        ops.SetCond(RestoreNeedsRetry, ConditionTrue, VolumeGone, now);
      } else if r == StageFailure {
        ops.SetCond(RestoreNeedsRetry, ConditionTrue, StageFailed, now);
      }
    }

    method StartRestoreRequest(ops: VeleroOps, p: Pass) returns (end: End)
      modifies svc, ops
      ensures Step(svc.c, ops.View(), end) == StartRestore(old(svc.c), name, old(ops.View()), p)
    {
      hide Set, Find, Store, Create, Recorded, Remove;
      if Busy(ops.restore) {
        ops.SetCond(RestoreRejectedBusy, ConditionTrue, AlreadyRunning, svc.c.now);
        return Wants(REQUEUE_INTERVAL);
      }
      if ops.read.target != "" && ops.read.target != name {
        ops.SetCond(Accepted, ConditionFalse, TargetOutsideMarker, svc.c.now);
        ops.restore := ops.restore.(handled := ops.read.restoreAsk);
        return Wants(0);
      }
      ops.restore := RestoreStatus(ops.read.restoreAsk, ops.read.fromBackup, ops.read.target, true, "", "New",
                                   false, false, false, None);
      ops.conditions := Remove(ops.conditions, RestoreRejectedBusy);
      ops.conditions := Remove(ops.conditions, RestoreNeedsRetry);
      ops.SetCond(RestoreInProgress, ConditionTrue, Requested, svc.c.now);
      var f := UpdateStatus(ops, p.reserve);
      if f == Dead {
        return Dies;
      }
      if f == Fault {
        return Errs(0);
      }
      svc.c := Logged(svc.c, Called(ops.read.restoreAsk));
      var r := svc.CreateVeleroRestore(name, ops.read.fromBackup, ops.read.target, p.sequence);
      if r == Died {
        return Dies;
      }
      RecordOutcome(ops, r, svc.c.now);
      return Wants(if r.Made? then REQUEUE_INTERVAL else 0);
    }

    method RecoverInterrupted(ops: VeleroOps, p: Pass) returns (end: End)
      modifies svc, ops
      ensures Step(svc.c, ops.View(), end) == Recover(old(svc.c), old(ops.View()), p)
    {
      hide Set, Find, InspectInterrupted, SetFluxSuspend;
      var (c1, f, seen) := InspectInterrupted(svc.c, p);
      svc.c := c1;
      if f == Dead {
        return Dies;
      }
      if f == Fault {
        return Errs(REQUEUE_INTERVAL);
      }
      if seen.active.Some? {
        ops.restore := ops.restore.(name := seen.active.value.name, phase := seen.active.value.phase);
        ops.SetCond(RestoreInProgress, ConditionTrue, Adopted, svc.c.now);
        return Wants(REQUEUE_INTERVAL);
      }
      if seen.volumeGone {
        ops.restore := ops.restore.(volumeDestroyed := true, phase := "Failed");
        ops.SetCond(RestoreInProgress, ConditionFalse, Reason.Interrupted, svc.c.now);
        ops.SetCond(RestoreNeedsRetry, ConditionTrue, VolumeGoneNoRestore, svc.c.now);
        return Wants(0);
      }
      var (c2, resumed) := SetFluxSuspend(svc.c, p.sequence.resumeHelm, p.sequence.resumeKustomization, false);
      svc.c := c2;
      if resumed == Dead {
        return Dies;
      }
      if resumed == Fault {
        ops.SetCond(RestoreNeedsRetry, ConditionTrue, AbortFailed, svc.c.now);
        return Errs(REQUEUE_INTERVAL);
      }
      ops.restore := ops.restore.(phase := "Failed");
      ops.SetCond(RestoreInProgress, ConditionFalse, Aborted, svc.c.now);
      ops.SetCond(RestoreNeedsRetry, ConditionTrue, InterruptedBeforePointOfNoReturn, svc.c.now);
      return Wants(0);
    }

    method TakeView(ops: VeleroOps, v: View, now: int) returns (requeue: nat)
      modifies ops`restore, ops`conditions
      ensures (ops.View().st, requeue) == Followed(old(ops.View()).st, v, now)
      ensures ops.View() == old(ops.View()).(st := ops.View().st)
    {
      hide Set, Find;
      ops.restore := ops.restore.(phase := v.phase, resumePending := v.resumePending, resumeFailed := false,
                                  volumeDestroyed := v.volumeDestroyed);
      if !IsTerminalRestorePhase(v.phase) {
        ops.SetCond(RestoreInProgress, ConditionTrue, InProgress, now);
        return REQUEUE_INTERVAL;
      }
      if ops.restore.firstTerminalAt == None {
        ops.restore := ops.restore.(firstTerminalAt := Some(now));
      }
      if v.resumePending {
        if now - ops.restore.firstTerminalAt.value > RESUME_GIVE_UP_AFTER {
          ops.restore := ops.restore.(resumeFailed := true, resumePending := false);
          ops.SetCond(FluxResumePending, ConditionTrue, ResumeGaveUp, now);
          return 0;
        }
        ops.SetCond(FluxResumePending, ConditionTrue, ResumePending, now);
        return REQUEUE_INTERVAL;
      }
      ops.SetCond(FluxResumePending, ConditionFalse, Resumed, now);
      if v.phase == "Completed" {
        ops.SetCond(RestoreInProgress, ConditionFalse, Reason.Completed, now);
      } else {
        ops.SetCond(RestoreInProgress, ConditionFalse, Reason.Failed, now);
      }
      if v.volumeDestroyed {
        ops.SetCond(RestoreNeedsRetry, ConditionTrue, VolumeDestroyed, now);
      }
      return 0;
    }

    method Follow(ops: VeleroOps, p: Pass) returns (end: End)
      modifies svc, ops
      ensures Step(svc.c, ops.View(), end) == FollowRestore(old(svc.c), old(ops.View()), p)
    {
      hide Set, Find, PollRestore, Followed, IsTerminalRestorePhase;
      if IsTerminalRestorePhase(ops.restore.phase) && !ops.restore.resumePending {
        return Wants(0);
      }
      var (c1, f, v) := PollRestore(svc.c, ops.restore.name, ops.restore.inPlace, p);
      svc.c := c1;
      if f == Dead {
        return Dies;
      }
      if f == Fault {
        return Errs(REQUEUE_INTERVAL);
      }
      var requeue := TakeView(ops, v, svc.c.now);
      return Wants(requeue);
    }

    method ReconcileRestoreRequest(ops: VeleroOps, p: Pass) returns (end: End)
      modifies svc, ops
      ensures Step(svc.c, ops.View(), end) == ReconcileRestore(old(svc.c), name, old(ops.View()), p)
    {
      hide StartRestore, FollowRestore, Recover;
      if WantsRestore(ops.View()) {
        end := StartRestoreRequest(ops, p);
      } else if ops.restore.name != "" {
        end := Follow(ops, p);
      } else if ops.restore.handled != "" && ops.restore.phase == "New" {
        end := RecoverInterrupted(ops, p);
      } else {
        end := Wants(0);
      }
    }

    method ReconcileBackupRequest(ops: VeleroOps, p: Pass) returns (end: End)
      modifies svc, ops
      ensures Step(svc.c, ops.View(), end) == ReconcileBackup(old(svc.c), old(ops.View()), p)
    {
      hide Set, Find, Store, TriggerVeleroBackup, GetBackupPhase, BackupSelection.IsTerminalBackupPhase;
      if WantsBackup(ops.View()) {
        ops.backup := BackupStatus(ops.read.backupAsk, "", "New");
        var f := UpdateStatus(ops, p.consume);
        if f == Dead {
          return Dies;
        }
        if f == Fault {
          return Errs(0);
        }
        var (c2, made) := TriggerVeleroBackup(svc.c, p.trigger, ops.read.backupAsk, p.backupName);
        svc.c := c2;
        if made == Dead {
          return Dies;
        }
        if made == Fault {
          ops.backup := ops.backup.(phase := "Failed");
          ops.SetCond(BackupCompleted, ConditionFalse, TriggerFailed, svc.c.now);
          return Wants(0);
        }
        ops.backup := ops.backup.(name := p.backupName);
        ops.SetCond(BackupCompleted, ConditionUnknown, InProgress, svc.c.now);
        return Wants(REQUEUE_INTERVAL);
      }
      if ops.backup.name == "" || BackupSelection.IsTerminalBackupPhase(ops.backup.phase) {
        return Wants(0);
      }
      var (c1, read) := GetBackupPhase(svc.c, p.getBackup, ops.backup.name);
      svc.c := c1;
      if !Alive(p.getBackup) {
        return Dies;
      }
      if read == None {
        return Errs(REQUEUE_INTERVAL);
      }
      var phase := read.value;
      ops.backup := ops.backup.(phase := phase);
      if phase == "Completed" {
        ops.SetCond(BackupCompleted, ConditionTrue, Reason.Completed, svc.c.now);
        return Wants(0);
      }
      if BackupSelection.IsTerminalBackupPhase(phase) {
        ops.SetCond(BackupCompleted, ConditionFalse, Reason.Failed, svc.c.now);
        return Wants(0);
      }
      return Wants(REQUEUE_INTERVAL);
    }

    /** Everything it does comes from the marker and what it can read back, never from memory. */
    method ReconcileMarker(p: Pass) returns (end: End)
      modifies svc
      ensures (svc.c, end) == ReconcileAnywhere(old(svc.c), name, namespace, p)
    {
      hide HappenAll, ReconcileRestore, ReconcileBackup, Store, Placed;
      svc.c := HappenAll(svc.c, p.idle);
      if svc.c.markers == [] {
        return Wants(0);
      }
      var ops := new VeleroOps(Opened(svc.c, p));
      if !Placed(name, namespace) {
        ops.SetCond(Accepted, ConditionFalse, NamespaceMismatch, svc.c.now);
        end := Conclude(ops, Wants(0), Wants(0), p);
        return;
      }
      var restoring := ReconcileRestoreRequest(ops, p);
      if restoring == Dies {
        svc.c := Forgotten(svc.c);
        return Dies;
      }
      var saving := ReconcileBackupRequest(ops, p);
      if saving == Dies {
        svc.c := Forgotten(svc.c);
        return Dies;
      }
      end := Conclude(ops, restoring, saving, p);
    }

    method Conclude(ops: VeleroOps, restoring: End, saving: End, p: Pass) returns (end: End)
      modifies svc, ops
      ensures (svc.c, end) == Finish(old(svc.c), old(ops.View()), restoring, saving, p)
    {
      hide Store;
      var f := UpdateStatus(ops, p.store);
      if f == Dead {
        svc.c := Forgotten(svc.c);
        return Dies;
      }
      if f == Fault || restoring.Errs? || saving.Errs? {
        return Errs(0);
      }
      return Wants(Soonest(Delay(restoring), Delay(saving)));
    }
  }

  /** A run of passes over the marker of one vcluster. */
  function Run(c: Site, name: string, ps: seq<Pass>): Site {
    if ps == [] then c else Reconcile(Run(c, name, ps[..|ps| - 1]), name, ps[|ps| - 1]).0
  }
}
