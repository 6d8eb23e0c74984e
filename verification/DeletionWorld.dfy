/**
 What the deletion of a vcluster acts on: the API server's copy of the object, the host
 namespace, Velero's backups, Rancher, and the clock. Before every call the outside may
 do anything (a turn's events), and a call may be served, refused, served with its
 answer lost, or never made because the operator was killed.
 */
module DeletionWorld {
  import opened Wrappers
  import opened Turns
  import opened Conditions
  import opened VClusters
  import opened BackupSelection

  // ---- the state outside the operator ----

  /** The host namespace. Each time it is created anew it gets a new identity. */
  datatype Namespace =
    | Absent
    | Live(id: nat, protected: bool)
    | Terminating(id: nat, protected: bool, since: int, byOperator: bool)

  datatype Cleanup = Cleanup(observable: bool, found: bool, done: bool, failed: bool, startedAt: int)

  datatype RancherTeardown = RancherTeardown(
    notConfigured: bool, enabled: bool, lookupFailed: bool, stillKnown: bool, cleanup: Cleanup)

  /** The VCluster as the API server stores it, `deletedAt` its deletionTimestamp. */
  datatype CR = CR(version: nat, finalizer: bool, wellPlaced: bool, deletedAt: int,
                   spec: Spec, override: string, status: Status)

  datatype Look = Unreadable | SawAbsent | SawLive | SawTerminating(since: int)

  /** The operator's calls that matter to the promises, in the order they took effect.
      A pass opens with what its copy of the object said. */
  datatype Entry =
    | Started(lifted: bool, override: string)
    | LookedAt(look: Look, at: int)
    | ListedBackups(covered: bool)
    | ReadProtection(protected: bool)
    | LiftedProtection
    | TornDown
    | AskedUnpair
    | CreatedBackup
    | DeletedNamespace(id: nat)
    | StoredStatus(concluded: bool)
    | Released

  datatype Cluster = Cluster(
    now: int, ns: Namespace, nextId: nat, rancher: RancherTeardown, backups: seq<Backup>, cr: CR, log: seq<Entry>)

  // ---- what the outside does by itself ----

  datatype Event =
    | Tick(seconds: nat)
    | RancherBecomes(rancher: RancherTeardown)
    | RancherForgets(cleanup: Cleanup)
    | CleanupEnds(failed: bool)
    | VeleroLists(backup: Backup)
    | VeleroStarts(i: nat)
    | VeleroFinishes(i: nat, phase: string)
    | VeleroRejects(i: nat)
    | VeleroForgets(i: nat)
    | NamespaceAppears(protected: bool)
    | NamespaceCondemned
    | NamespaceVanishes
    | ProtectionSet(protected: bool)
    | Edited(protection: bool, override: string)

  /** Rancher still has the cluster, or does not say. */
  predicate Unresolved(r: RancherTeardown) {
    !r.notConfigured && r.enabled && (r.lookupFailed || r.stillKnown)
  }

  predicate CleanupRuns(r: RancherTeardown) {
    !r.notConfigured && r.enabled && !r.lookupFailed && !r.stillKnown
    && r.cleanup.found && !r.cleanup.done && !r.cleanup.failed
  }

  function Happen(c: Cluster, e: Event): Cluster {
    match e
    case Tick(seconds) => c.(now := c.now + seconds)
    case RancherBecomes(r) => c.(rancher := r)
    case RancherForgets(job) =>
      if Unresolved(c.rancher) then c.(rancher := c.rancher.(lookupFailed := false, stillKnown := false, cleanup := job)) else c
    case CleanupEnds(failed) =>
      if CleanupRuns(c.rancher) then
        c.(rancher := c.rancher.(cleanup := c.rancher.cleanup.(done := !failed, failed := failed)))
      else c
    case VeleroLists(b) => c.(backups := c.backups + [b])
    case VeleroStarts(i) =>
      if i < |c.backups| && !IsTerminalBackupPhase(c.backups[i].phase) && c.backups[i].started == 0 then
        c.(backups := c.backups[i := c.backups[i].(phase := "InProgress", started := c.now)])
      else c
    case VeleroFinishes(i, phase) =>
      if i < |c.backups| && !IsTerminalBackupPhase(c.backups[i].phase) && IsTerminalBackupPhase(phase) then
        c.(backups := c.backups[i := c.backups[i].(phase := phase, completed := c.now)])
      else c
    case VeleroRejects(i) =>
      if i < |c.backups| && !IsTerminalBackupPhase(c.backups[i].phase) && c.backups[i].started == 0 then
        c.(backups := c.backups[i := c.backups[i].(phase := "FailedValidation")])
      else c
    case VeleroForgets(i) =>
      if i < |c.backups| then c.(backups := c.backups[..i] + c.backups[i + 1..]) else c
    case NamespaceAppears(protected) =>
      if c.ns.Absent? then c.(ns := Live(c.nextId, protected), nextId := c.nextId + 1) else c
    case NamespaceCondemned =>
      if c.ns.Live? then c.(ns := Terminating(c.ns.id, c.ns.protected, c.now, false)) else c
    case NamespaceVanishes => if c.ns.Terminating? then c.(ns := Absent) else c
    case ProtectionSet(protected) => if c.ns.Absent? then c else c.(ns := c.ns.(protected := protected))
    case Edited(protection, override) =>
      c.(cr := c.cr.(version := c.cr.version + 1,
                     spec := c.cr.spec.(deletionProtection := protection),
                     override := override))
  }

  function HappenAll(c: Cluster, es: seq<Event>): Cluster {
    if es == [] then c else Happen(HappenAll(c, es[..|es| - 1]), es[|es| - 1])
  }

  lemma EventKeepsLog(c: Cluster, e: Event)
    ensures Happen(c, e).log == c.log
  {
    hide IsTerminalBackupPhase;
  }

  /** The log is the operator's alone. */
  lemma {:induction false} EventsKeepLog(c: Cluster, es: seq<Event>)
    ensures HappenAll(c, es).log == c.log
  {
    hide Happen;
    if es == [] {
    } else {
      EventsKeepLog(c, es[..|es| - 1]);
      EventKeepsLog(HappenAll(c, es[..|es| - 1]), es[|es| - 1]);
    }
  }

  // ---- the operator's calls ----

  type Turn = TurnOf<Event>

  function At(c: Cluster, t: Turn): Cluster {
    HappenAll(c, t.before)
  }

  function Logged(c: Cluster, e: Entry): Cluster {
    c.(log := c.log + [e])
  }

  /** InspectRancherTeardown: a failed lookup is told apart from an absence. */
  function InspectRancher(c: Cluster, t: Turn): (Cluster, RancherTeardown) {
    var c := At(c, t);
    (c, if t.fate == Served || c.rancher.notConfigured || !c.rancher.enabled then c.rancher
        else RancherTeardown(false, true, true, false, Cleanup(false, false, false, false, 0)))
  }

  function Unpair(c: Cluster, t: Turn): (Cluster, bool) {
    var c := At(c, t);
    (if TakesEffect(t) then Logged(c, AskedUnpair) else c, t.fate == Served)
  }

  function LookOf(ns: Namespace): Look {
    match ns
    case Absent => SawAbsent
    case Live(_, _) => SawLive
    case Terminating(_, _, since, _) => SawTerminating(since)
  }

  /** HostNamespaceState: one read of the namespace. */
  function LookAtNamespace(c: Cluster, t: Turn): (Cluster, Look) {
    var c := At(c, t);
    var look := if t.fate == Served then LookOf(c.ns) else Unreadable;
    (if Alive(t) then Logged(c, LookedAt(look, c.now)) else c, look)
  }

  ghost predicate Covered(backups: seq<Backup>, since: int) {
    exists b | b in backups :: b.phase == "Completed" && InTime(b, since)
  }

  function InspectBackups(c: Cluster, t: Turn, since: int): (Cluster, Option<DeletionBackup>) {
    var c := At(c, t);
    if t.fate != Served then (c, None)
    else (Logged(c, ListedBackups(Pick(c.backups, since).completed)), Some(Pick(c.backups, since)))
  }

  /** TriggerVeleroBackup: Velero lists what was created, without a phase yet. */
  function TriggerBackup(c: Cluster, t: Turn, name: string): (Cluster, bool) {
    var c := At(c, t);
    (if TakesEffect(t) then Logged(c.(backups := c.backups + [Backup(name, "", 0, 0)]), CreatedBackup) else c,
     t.fate == Served)
  }

  /** GetProtection: an absent namespace is an answer, a failed read is none. */
  function GetProtection(c: Cluster, t: Turn): (Cluster, Option<bool>) {
    var c := At(c, t);
    if t.fate != Served then (c, None)
    else
      var protected := !c.ns.Absent? && c.ns.protected;
      (Logged(c, ReadProtection(protected)), Some(protected))
  }

  function LiftProtection(c: Cluster, t: Turn): (Cluster, bool) {
    var c := At(c, t);
    (if TakesEffect(t) && !c.ns.Absent? then Logged(c.(ns := c.ns.(protected := false)), LiftedProtection) else c,
     t.fate == Served && !c.ns.Absent?)
  }

  /** TeardownVCluster: Flux finalizers and external systems, of which only the outcome matters here. */
  function Teardown(c: Cluster, t: Turn): (Cluster, bool) {
    var c := At(c, t);
    (if t.fate == Served then Logged(c, TornDown) else c, t.fate == Served)
  }

  /** DeleteHostNamespace: condemns the namespace; one already gone is a success. */
  function DeleteNamespace(c: Cluster, t: Turn): (Cluster, bool) {
    var c := At(c, t);
    var c' :=
      if !TakesEffect(t) then c
      else
        match c.ns
        case Absent => c
        case Live(id, protected) => Logged(c.(ns := Terminating(id, protected, c.now, true)), DeletedNamespace(id))
        case Terminating(id, _, _, _) => Logged(c, DeletedNamespace(id));
    (c', t.fate == Served)
  }

  predicate Concludes(st: Status) {
    HasReason(st.conditions, Ready, Deleted)
  }

  /** A status update lands only on the version it was read from. */
  function StoreStatus(c: Cluster, t: Turn, version: nat, st: Status): (Cluster, bool) {
    var c := At(c, t);
    var lands := TakesEffect(t) && c.cr.version == version && c.cr.finalizer;
    (if lands then Logged(c.(cr := c.cr.(status := st, version := version + 1)), StoredStatus(Concludes(st))) else c,
     lands && t.fate == Served)
  }

  /** Removing the finalizer: with it goes the object. */
  function Release(c: Cluster, t: Turn, version: nat): (Cluster, bool) {
    var c := At(c, t);
    var lands := TakesEffect(t) && c.cr.version == version && c.cr.finalizer;
    (if lands then Logged(c.(cr := c.cr.(finalizer := false, version := version + 1)), Released) else c,
     lands && t.fate == Served)
  }
}
