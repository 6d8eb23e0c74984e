/**
 Putting Flux back: after an interruption that left the volume, and after a restore that
 ended. When it is done, when it is only said, and that what is left to do is looked at again.
 */
module RestoreResume {
  import opened Wrappers
  import opened Turns
  import BackupSelection
  import opened Conditions
  import opened RestoreWorld
  import opened RestoreSequence
  import opened RestoreController
  import opened RestoreAside

  /** Neither Flux object is suspended. */
  predicate FluxIsBack(c: Site) {
    !c.helmSuspended && !c.kustomizationSuspended
  }

  /** Both Flux objects were patched not to be suspended, since the log was `before`. */
  ghost predicate PutBack(before: seq<Entry>, after: seq<Entry>) {
    exists i, j | |before| <= i < j < |after| :: after[i] == PatchedHelmRelease(false) && after[j] == PatchedKustomization(false)
  }

  /** Flux is as it was, and nothing was done to it. */
  predicate FluxUntouched(c: Site, d: Site) {
    d.helmSuspended == c.helmSuspended && d.kustomizationSuspended == c.kustomizationSuspended && d.log == c.log
  }

  /** A restore that has ended. */
  predicate Ended(phase: string) {
    phase in {"Completed", "Failed", "PartiallyFailed"}
  }

  // ---- what the outside leaves alone ----

  lemma EventLeavesFlux(c: Site, e: Event)
    ensures FluxUntouched(c, Happen(c, e)) && Happen(c, e).resolved <= c.resolved
  {
    if e.VeleroRebuilds? || e.FluxRebuilds? {
      RebuiltLeavesFlux(c, e.external, e.deployment, e.statefulSet, e.etcd);
      hide *;
      EventIs(c, e);
    } else if e.VolumeReleased? {
      RebuiltLeavesFlux(c, e.external, false, false, false);
      hide *;
      EventIs(c, e);
    }
  }

  lemma RebuiltLeavesFlux(c: Site, x: bool, a: bool, b: bool, etcd: bool)
    ensures FluxUntouched(c, Rebuilt(c, x, a, b, etcd)) && Rebuilt(c, x, a, b, etcd).resolved == c.resolved
    ensures FluxUntouched(c, WithVolume(c, x, Gone)) && WithVolume(c, x, Gone).resolved == c.resolved
    ensures FluxUntouched(c, c) && c.resolved <= c.resolved
  {
    hide Volume;
  }

  lemma {:induction false} EventsLeaveFlux(c: Site, es: seq<Event>)
    ensures FluxUntouched(c, HappenAll(c, es)) && HappenAll(c, es).resolved <= c.resolved
  {
    hide Happen;
    if es == [] {
    } else {
      EventsLeaveFlux(c, es[..|es| - 1]);
      EventLeavesFlux(HappenAll(c, es[..|es| - 1]), es[|es| - 1]);
    }
  }

  lemma TurnLeavesFlux(c: Site, t: Turn)
    ensures FluxUntouched(c, At(c, t)) && At(c, t).resolved <= c.resolved
  {
    EventsLeaveFlux(c, t.before);
    hide HappenAll;
  }

  // ---- the two patches ----

  /** The two resuming patches: both acknowledged exactly when both are served, and then Flux is
      back; both made but not acknowledged exactly when the second one's answer is lost. */
  lemma ResumePatches(c: Site, helm: Turn, kustomization: Turn)
    ensures var (d, f) := SetFluxSuspend(c, helm, kustomization, false);
            && c.log <= d.log && d.resolved <= c.resolved
            && (f == Fine <==> PutBack(c.log, d.log) && kustomization.fate != Lost)
            && (PutBack(c.log, d.log) ==> FluxIsBack(d))
            && (PutBack(c.log, d.log) <==> helm.fate == Served && TakesEffect(kustomization))
  {
    TurnLeavesFlux(c, helm);
    var c1 := PatchHelmRelease(c, helm, false).0;
    TurnLeavesFlux(c1, kustomization);
    hide HappenAll;
    var (d, f) := SetFluxSuspend(c, helm, kustomization, false);
    if helm.fate == Served && TakesEffect(kustomization) {
      assert d.log == c.log + [PatchedHelmRelease(false)] + [PatchedKustomization(false)];
      assert d.log[|c.log|] == PatchedHelmRelease(false) && d.log[|c.log| + 1] == PatchedKustomization(false);
    } else {
      assert |d.log| <= |c.log| + 1;
    }
  }

  // ---- after an interruption ----

  /** What the cluster shows of an interrupted sequence, read call after call: the mode told by
      the etcd that is left, the volume of that mode, and then the restores. */
  function Shown(c: Site, p: Pass): (Site, Pvc, Option<Restore>) {
    var a := At(c, p.interruptedEtcd);
    var b := if a.etcd then At(a, p.interruptedControlPlane) else a;
    var v := At(b, p.interruptedVolume);
    var d := At(v, p.interruptedList);
    (d, if a.etcd then v.etcdPvc else v.dataPvc, FirstActive(d.restores))
  }

  /** The reads are answered. */
  predicate ReadsServed(c: Site, p: Pass) {
    && p.interruptedEtcd.fate == Served && p.interruptedVolume.fate == Served && p.interruptedList.fate == Served
    && (At(c, p.interruptedEtcd).etcd ==> Alive(p.interruptedControlPlane))
  }

  lemma ShownIsInspected(c: Site, p: Pass)
    requires ReadsServed(c, p)
    ensures var (d, v, active) := Shown(c, p);
            InspectInterrupted(c, p) == (d, Fine, Leftover(v != Bound, active)) && FluxUntouched(c, d)
  {
    TurnLeavesFlux(c, p.interruptedEtcd);
    var a := At(c, p.interruptedEtcd);
    TurnLeavesFlux(a, p.interruptedControlPlane);
    var b := if a.etcd then At(a, p.interruptedControlPlane) else a;
    TurnLeavesFlux(b, p.interruptedVolume);
    TurnLeavesFlux(At(b, p.interruptedVolume), p.interruptedList);
    hide HappenAll, FirstActive;
  }

  /** What becomes of an interrupted sequence. A restore at work is adopted, whatever the volume;
      a volume that is gone, or going, is told destroyed; neither touches Flux. A volume that is
      bound has Flux put back, and that is told exactly when both patches are known to be made. */
  lemma InterruptionIsRepaired(c: Site, l: Local, p: Pass)
    requires ReadsServed(c, p) && l.st.restore.phase == "New"
    ensures var (d, v, active) := Shown(c, p);
            var s := Recover(c, l, p);
            var st := s.l.st;
            if active.Some? then
              && FluxUntouched(c, s.c) && s.end == Wants(10)
              && st.restore.name == active.value.name && st.restore.phase == active.value.phase
            else if v != Bound then
              && FluxUntouched(c, s.c) && s.end == Wants(0) && st.restore.volumeDestroyed && st.restore.phase == "Failed"
              && HasReason(st.conditions, RestoreNeedsRetry, VolumeGoneNoRestore)
            else
              && (PutBack(c.log, s.c.log) ==> FluxIsBack(s.c))
              && (s.end == Wants(0) <==> PutBack(c.log, s.c.log) && p.sequence.resumeKustomization.fate != Lost)
              && (s.end == Wants(0) <==> st.restore.phase == "Failed" && s.end != Dies)
              && (s.end == Wants(0) ==> HasReason(st.conditions, RestoreInProgress, Aborted)
                                        && HasReason(st.conditions, RestoreNeedsRetry, InterruptedBeforePointOfNoReturn))
              && (s.end == Wants(0) || s.end == Dies
                  || (s.end == Errs(10) && HasReason(st.conditions, RestoreNeedsRetry, AbortFailed)))
  {
    ShownIsInspected(c, p);
    RecoveryTells(c, l, p);
    var (d, v, active) := Shown(c, p);
    ResumePatches(d, p.sequence.resumeHelm, p.sequence.resumeKustomization);
    hide *;
    assert FluxUntouched(c, d) ==> d.log == c.log by {
      LogUntouched(c, d);
    }
  }

  lemma LogUntouched(c: Site, d: Site)
    ensures FluxUntouched(c, d) ==> d.log == c.log
  {
  }

  /** How what was inspected, and the two patches, are told. */
  lemma RecoveryTells(c: Site, l: Local, p: Pass)
    requires InspectInterrupted(c, p).1 == Fine && l.st.restore.phase == "New"
    ensures var (d, _, seen) := InspectInterrupted(c, p);
            var (e, f) := SetFluxSuspend(d, p.sequence.resumeHelm, p.sequence.resumeKustomization, false);
            var s := Recover(c, l, p);
            var st := s.l.st;
            if seen.active.Some? then
              && s.c == d && s.end == Wants(10)
              && st.restore.name == seen.active.value.name && st.restore.phase == seen.active.value.phase
            else if seen.volumeGone then
              && s.c == d && s.end == Wants(0) && st.restore.volumeDestroyed && st.restore.phase == "Failed"
              && HasReason(st.conditions, RestoreNeedsRetry, VolumeGoneNoRestore)
            else
              && s.c == e && s.end == (if f == Fine then Wants(0) else if f == Fault then Errs(10) else Dies)
              && st.restore.phase == (if f == Fine then "Failed" else "New")
              && (f == Fine ==> HasReason(st.conditions, RestoreInProgress, Aborted)
                                && HasReason(st.conditions, RestoreNeedsRetry, InterruptedBeforePointOfNoReturn))
              && (f == Fault ==> HasReason(st.conditions, RestoreNeedsRetry, AbortFailed))
  {
    var (d, _, seen) := InspectInterrupted(c, p);
    hide InspectInterrupted, SetFluxSuspend, Recover, HasReason;
    if seen.active.Some? {
      AdoptionTells(c, l, p);
    } else if seen.volumeGone {
      LossTells(c, l, p);
    } else {
      AbortTells(c, l, p);
    }
  }

  lemma AdoptionTells(c: Site, l: Local, p: Pass)
    requires InspectInterrupted(c, p).1 == Fine && InspectInterrupted(c, p).2.active.Some?
    ensures var (d, _, seen) := InspectInterrupted(c, p);
            var s := Recover(c, l, p);
            && s.c == d && s.end == Wants(10)
            && s.l.st.restore.name == seen.active.value.name && s.l.st.restore.phase == seen.active.value.phase
  {
    hide InspectInterrupted, SetFluxSuspend, Set, Find;
  }

  lemma LossTells(c: Site, l: Local, p: Pass)
    requires InspectInterrupted(c, p).1 == Fine
    requires InspectInterrupted(c, p).2.active == None && InspectInterrupted(c, p).2.volumeGone
    ensures var s := Recover(c, l, p);
            && s.c == InspectInterrupted(c, p).0 && s.end == Wants(0)
            && s.l.st.restore.volumeDestroyed && s.l.st.restore.phase == "Failed"
            && HasReason(s.l.st.conditions, RestoreNeedsRetry, VolumeGoneNoRestore)
  {
    hide InspectInterrupted, SetFluxSuspend, Set, Find;
  }

  lemma AbortTells(c: Site, l: Local, p: Pass)
    requires InspectInterrupted(c, p).1 == Fine && l.st.restore.phase == "New"
    requires InspectInterrupted(c, p).2.active == None && !InspectInterrupted(c, p).2.volumeGone
    ensures var (e, f) := SetFluxSuspend(InspectInterrupted(c, p).0, p.sequence.resumeHelm,
                                         p.sequence.resumeKustomization, false);
            var s := Recover(c, l, p);
            var st := s.l.st;
            && s.c == e && s.end == (if f == Fine then Wants(0) else if f == Fault then Errs(10) else Dies)
            && st.restore.phase == (if f == Fine then "Failed" else "New")
            && (f == Fine ==> HasReason(st.conditions, RestoreInProgress, Aborted)
                              && HasReason(st.conditions, RestoreNeedsRetry, InterruptedBeforePointOfNoReturn))
            && (f == Fault ==> HasReason(st.conditions, RestoreNeedsRetry, AbortFailed))
  {
    hide InspectInterrupted, SetFluxSuspend, Set, Find;
  }

  // ---- after a restore that ended ----

  lemma PhaseLeavesFlux(c: Site, t: Turn, name: string)
    ensures var (d, phase) := GetRestorePhase(c, t, name);
            && d.helmSuspended == c.helmSuspended && d.kustomizationSuspended == c.kustomizationSuspended
            && d.resolved <= c.resolved && c.log <= d.log && d.resolved == At(c, t).resolved
            && d.log == (if phase.Some? then c.log + [PolledRestore(name, phase.value)] else c.log)
  {
    TurnLeavesFlux(c, t);
    hide HappenAll, Named;
  }

  /** The phase a served read finds. */
  predicate ReadsPhase(c: Site, p: Pass, name: string, phase: string) {
    && p.getRestore.fate == Served && phase != ""
    && Named(At(c, p.getRestore).restores, name) == Some(Restore(name, phase))
  }

  /** An in-place restore found ended, not remembered as resumed: both Flux objects are patched
      back, and no resume is left pending exactly when both patches are known to be made. The
      view says as much of the volume: destroyed by a restore that failed. */
  lemma EndedRestoreResumes(c: Site, name: string, phase: string, p: Pass)
    requires ReadsPhase(c, p, name, phase) && Ended(phase) && name !in At(c, p.getRestore).resolved
    ensures var (d, f, v) := PollRestore(c, name, true, p);
            && (PutBack(c.log, d.log) ==> FluxIsBack(d))
            && (f == Fine || f == Dead)
            && (f == Fine ==> && v.phase == phase
                              && (v.volumeDestroyed <==> phase == "Failed")
                              && (!v.resumePending <==> PutBack(c.log, d.log) && p.sequence.resumeKustomization.fate != Lost)
                              && (!v.resumePending <==> name in d.resolved))
  {
    PhaseLeavesFlux(c, p.getRestore, name);
    var c1 := GetRestorePhase(c, p.getRestore, name).0;
    ResumePatches(c1, p.sequence.resumeHelm, p.sequence.resumeKustomization);
    hide HappenAll, SetFluxSuspend, Named, PutBack;
    var d := SetFluxSuspend(c1, p.sequence.resumeHelm, p.sequence.resumeKustomization, false).0;
    PolledFirst(c.log, c1.log, d.log);
  }

  /** An entry that is no patch comes first. */
  lemma PolledFirst(a: seq<Entry>, b: seq<Entry>, c: seq<Entry>)
    requires b <= c && (exists name, phase :: b == a + [PolledRestore(name, phase)])
    ensures PutBack(a, c) <==> PutBack(b, c)
  {
    assert b[|a|] == c[|a|] && c[|a|].PolledRestore?;
  }

  /** A restore still at work is left alone, and looked at again. */
  lemma RunningRestoreIsLeftAlone(c: Site, l: Local, phase: string, p: Pass)
    requires ReadsPhase(c, p, l.st.restore.name, phase) && !Ended(phase) && Busy(l.st.restore)
    ensures var s := FollowRestore(c, l, p);
            && s.c.helmSuspended == c.helmSuspended && s.c.kustomizationSuspended == c.kustomizationSuspended
            && s.end == Wants(10) && s.l.st.restore.phase == phase && s.l.st.restore.name == l.st.restore.name
            && HasReason(s.l.st.conditions, RestoreInProgress, InProgress)
  {
    PhaseLeavesFlux(c, p.getRestore, l.st.restore.name);
    hide HappenAll, Named, Set, Find;
  }

  // ---- one pass in a world that answers ----

  lemma BackupLeavesFlux(c: Site, l: Local, p: Pass)
    ensures var d := ReconcileBackup(c, l, p).c;
            && d.helmSuspended == c.helmSuspended && d.kustomizationSuspended == c.kustomizationSuspended && c.log <= d.log
  {
    TurnLeavesFlux(c, p.getBackup);
    var l0 := l.(st := l.st.(backup := BackupStatus(l.read.backupAsk, "", "New")));
    StoreLeavesFlux(c, p.consume, l0);
    var c1 := Store(c, p.consume, l0).0;
    TurnLeavesFlux(c1, p.trigger);
    hide HappenAll, Store, Set, Find, BackupSelection.IsTerminalBackupPhase;
  }

  lemma StoreLeavesFlux(c: Site, t: Turn, l: Local)
    ensures var d := Store(c, t, l).0;
            d.helmSuspended == c.helmSuspended && d.kustomizationSuspended == c.kustomizationSuspended && d.log == c.log
  {
    TurnLeavesFlux(c, t);
    hide HappenAll;
  }

  /** The rest of a pass leaves Flux as the restore part left it. */
  lemma RestLeavesFlux(c: Site, name: string, p: Pass)
    requires HappenAll(c, p.idle).markers != []
    ensures var c0 := HappenAll(c, p.idle);
            var s := ReconcileRestore(c0, name, Opened(c0, p), p).c;
            var d := Reconcile(c, name, p).0;
            d.helmSuspended == s.helmSuspended && d.kustomizationSuspended == s.kustomizationSuspended && s.log <= d.log
  {
    var c0 := HappenAll(c, p.idle);
    var s1 := ReconcileRestore(c0, name, Opened(c0, p), p);
    BackupLeavesFlux(s1.c, s1.l, p);
    var s2 := ReconcileBackup(s1.c, s1.l, p);
    FinishLeavesFlux(s2.c, s2.l, s1.end, s2.end, p);
    hide HappenAll, ReconcileRestore, ReconcileBackup, Finish, Opened;
  }

  lemma FinishLeavesFlux(c: Site, l: Local, restoring: End, saving: End, p: Pass)
    ensures var d := Finish(c, l, restoring, saving, p).0;
            d.helmSuspended == c.helmSuspended && d.kustomizationSuspended == c.kustomizationSuspended && d.log == c.log
  {
    StoreLeavesFlux(c, p.store, l);
    hide Store;
  }

  /** The two resuming patches are served. */
  predicate ResumesServed(p: Pass) {
    p.sequence.resumeHelm.fate == Served && p.sequence.resumeKustomization.fate == Served
  }

  /** The pass takes over an interrupted sequence: reserved, no restore known of. */
  predicate TakesOver(c: Site, p: Pass) {
    c.markers != [] && var l := Opened(c, p);
                       !WantsRestore(l) && l.st.restore.name == "" && l.st.restore.handled != "" && l.st.restore.phase == "New"
  }

  /** With its calls served, one pass over an interrupted sequence that left the volume bound
      puts Flux back. */
  lemma InterruptedComesBack(c: Site, name: string, p: Pass)
    requires var c0 := HappenAll(c, p.idle);
             && TakesOver(c0, p) && ReadsServed(c0, p) && Shown(c0, p).1 == Bound && Shown(c0, p).2 == None
    requires ResumesServed(p)
    ensures FluxIsBack(Reconcile(c, name, p).0)
  {
    var c0 := HappenAll(c, p.idle);
    var l := Opened(c0, p);
    assert ReconcileRestore(c0, name, l, p) == Recover(c0, l, p) by {
      hide StartRestore, FollowRestore, Recover, HappenAll, Opened;
    }
    RecoveryIsResumed(c0, l, p);
    RestLeavesFlux(c, name, p);
    hide HappenAll, Reconcile, ReconcileRestore, Recover, Opened;
  }

  lemma RecoveryIsResumed(c: Site, l: Local, p: Pass)
    requires ReadsServed(c, p) && Shown(c, p).1 == Bound && Shown(c, p).2 == None && ResumesServed(p)
    ensures FluxIsBack(Recover(c, l, p).c)
  {
    ShownIsInspected(c, p);
    ResumePatches(Shown(c, p).0, p.sequence.resumeHelm, p.sequence.resumeKustomization);
    hide InspectInterrupted, Shown, SetFluxSuspend, PutBack, Set, Find;
  }

  /** The pass follows a restore made in place, not known to be over with. */
  predicate FollowsOn(c: Site, p: Pass) {
    c.markers != [] && var l := Opened(c, p);
                       && !WantsRestore(l) && l.st.restore.name != "" && l.st.restore.inPlace
                       && !(IsTerminalRestorePhase(l.st.restore.phase) && !l.st.restore.resumePending)
  }

  /** With its calls served, one pass that finds the followed restore ended puts Flux back. */
  lemma EndedComesBack(c: Site, name: string, phase: string, p: Pass)
    requires var c0 := HappenAll(c, p.idle);
             && FollowsOn(c0, p) && ReadsPhase(c0, p, Opened(c0, p).st.restore.name, phase) && Ended(phase)
             && Opened(c0, p).st.restore.name !in At(c0, p.getRestore).resolved
    requires ResumesServed(p)
    ensures FluxIsBack(Reconcile(c, name, p).0)
  {
    var c0 := HappenAll(c, p.idle);
    var l := Opened(c0, p);
    assert ReconcileRestore(c0, name, l, p).c == PollRestore(c0, l.st.restore.name, true, p).0 by {
      hide StartRestore, PollRestore, Recover, HappenAll, Opened, Followed;
    }
    PollIsResumed(c0, l.st.restore.name, phase, p);
    RestLeavesFlux(c, name, p);
    hide HappenAll, Reconcile, ReconcileRestore, PollRestore, Opened;
  }

  lemma PollIsResumed(c: Site, name: string, phase: string, p: Pass)
    requires ReadsPhase(c, p, name, phase) && Ended(phase) && name !in At(c, p.getRestore).resolved && ResumesServed(p)
    ensures FluxIsBack(PollRestore(c, name, true, p).0)
  {
    var c1 := GetRestorePhase(c, p.getRestore, name).0;
    ResumePatches(c1, p.sequence.resumeHelm, p.sequence.resumeKustomization);
    hide HappenAll, SetFluxSuspend, Named, PutBack;
  }

  // ---- nothing is left lying ----

  /** There is something left to do for the recorded request. */
  predicate Unfinished(r: RestoreStatus) {
    (r.name != "" && (!IsTerminalRestorePhase(r.phase) || r.resumePending))
    || (r.name == "" && r.handled != "" && r.phase == "New")
  }

  /** A restore part that leaves something to do, or a request waiting, asks for another look,
      errs, or changes what is handled, which brings the next pass about. */
  lemma UnfinishedIsLookedAtAgain(c: Site, name: string, l: Local, p: Pass)
    requires l.st == l.read.status
    ensures var s := ReconcileRestore(c, name, l, p);
            Unfinished(s.l.st.restore) || WantsRestore(s.l) ==>
              s.end.Errs? || s.end == Dies || s.end == Wants(10) || s.l.st.restore.handled != l.st.restore.handled
  {
    hide PollRestore, InspectInterrupted, SetFluxSuspend, Create, Store, Set, Find, Remove, HappenAll, IsTerminalRestorePhase;
    NewIsNotOver();
    if WantsRestore(l) {
      StoreTells(c, p.reserve, l.(st := Reservation(l.read, l.st, c.now)));
      StartLooksAgain(c, name, l, p);
    }
  }

  lemma NewIsNotOver()
    ensures !IsTerminalRestorePhase("New") && IsTerminalRestorePhase("Failed")
  {
  }

  lemma StartLooksAgain(c: Site, name: string, l: Local, p: Pass)
    requires WantsRestore(l)
    ensures var s := StartRestore(c, name, l, p);
            s.end.Errs? || s.end == Dies || s.end == Wants(10) || s.l.st.restore.handled != l.st.restore.handled
  {
    StoreTells(c, p.reserve, l.(st := Reservation(l.read, l.st, c.now)));
    var (c1, l1, f) := Store(c, p.reserve, l.(st := Reservation(l.read, l.st, c.now)));
    CallIsSequence(c1, name, l1, p);
    hide Store, CallSequence, Set, Find, Remove, HappenAll, Busy;
  }

  /** So does the pass: it ends no later than its parts ask for. */
  lemma PassLooksAgain(c: Site, l: Local, restoring: End, saving: End, p: Pass)
    requires restoring.Errs? || Delay(restoring) > 0
    ensures var end := Finish(c, l, restoring, saving, p).1;
            end.Errs? || end == Dies || (0 < Delay(end) && (restoring.Wants? ==> Delay(end) <= Delay(restoring)))
  {
    hide Store;
  }
}
