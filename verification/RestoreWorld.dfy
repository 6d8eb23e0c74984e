/**
 What an in-place restore acts on: Flux's two objects, the vcluster's workloads and
 volumes, Velero's backups and restores, and the marker that carries requests and status.
 As for deletions, the outside may act before every call, and a call may be refused,
 served with its answer lost, or never made.
 */
module RestoreWorld {
  import opened Wrappers
  import opened Turns
  import opened Conditions

  datatype Pvc = Gone | Bound | Terminating

  datatype Restore = Restore(name: string, phase: string)

  predicate IsTerminalRestorePhase(phase: string) {
    phase == "Completed" || phase == "Failed" || phase == "PartiallyFailed"
  }

  // ---- the marker ----

  datatype RestoreStatus = RestoreStatus(
    handled: string, fromBackup: string, target: string, inPlace: bool,
    name: string, phase: string,
    resumePending: bool, resumeFailed: bool, volumeDestroyed: bool, firstTerminalAt: Option<int>)

  datatype BackupStatus = BackupStatus(handled: string, name: string, phase: string)

  datatype OpsStatus = OpsStatus(restore: RestoreStatus, backup: BackupStatus, conditions: seq<Condition>)

  /** The marker as stored: the requester's annotations and the operator's status. */
  datatype Marker = Marker(restoreAsk: string, fromBackup: string, target: string, backupAsk: string, status: OpsStatus)

  // ---- the state outside the operator ----

  /** The operator's effects, in order. */
  datatype Entry =
    | Called(ask: string)
    | ReadBackup(name: string, phase: string)
    | PatchedHelmRelease(suspend: bool)
    | PatchedKustomization(suspend: bool)
    | DeletedDeployment
    | DeletedStatefulSet
    | DeletedEtcd
    | DeletedVolume(external: bool)
    | CreatedRestore(name: string, from: string)
    | PolledRestore(name: string, phase: string)
    | TriggeredBackup(ask: string)

  /** `markers` is every version of the marker, the last one current. `resolved` lives in
      the operator's memory: the restores after which it knows Flux to be resumed. */
  datatype Site = Site(
    now: int, helmSuspended: bool, kustomizationSuspended: bool,
    deployment: bool, statefulSet: bool, etcd: bool,
    dataPvc: Pvc, etcdPvc: Pvc,
    backups: map<string, string>, restores: seq<Restore>,
    markers: seq<Marker>, resolved: set<string>, log: seq<Entry>)

  function Volume(c: Site, external: bool): Pvc {
    if external then c.etcdPvc else c.dataPvc
  }

  function WithVolume(c: Site, external: bool, v: Pvc): Site {
    if external then c.(etcdPvc := v) else c.(dataPvc := v)
  }

  function Current(c: Site): Marker
    requires c.markers != []
  {
    c.markers[|c.markers| - 1]
  }

  predicate IsActive(r: Restore) {
    !IsTerminalRestorePhase(r.phase)
  }

  /** The first restore that has not ended. */
  function FirstActive(restores: seq<Restore>): Option<Restore> {
    if restores == [] then None
    else if IsActive(restores[0]) then Some(restores[0])
    else FirstActive(restores[1..])
  }

  function Named(restores: seq<Restore>, name: string): Option<Restore> {
    if restores == [] then None
    else if restores[0].name == name then Some(restores[0])
    else Named(restores[1..], name)
  }

  // ---- what the outside does by itself ----

  datatype Event =
    | Tick(seconds: nat)
    | RestoreAsked(ask: string, fromBackup: string, target: string)
    | BackupAsked(ask: string)
    | BackupReaches(name: string, phase: string)
    | RestoreReaches(i: nat, phase: string)
    | VeleroRebuilds(external: bool, deployment: bool, statefulSet: bool, etcd: bool)
    | VolumeReleased(external: bool)
    | FluxRebuilds(external: bool, deployment: bool, statefulSet: bool, etcd: bool)
    | Restarted

  function Rebuilt(c: Site, external: bool, deployment: bool, statefulSet: bool, etcd: bool): Site {
    var c' := c.(deployment := c.deployment || deployment, statefulSet := c.statefulSet || statefulSet, etcd := c.etcd || etcd);
    if Volume(c, external) == Gone then WithVolume(c', external, Bound) else c'
  }

  function Happen(c: Site, e: Event): Site {
    match e
    case Tick(seconds) => c.(now := c.now + seconds)
    case RestoreAsked(ask, from, target) =>
      if c.markers == [] then c
      else c.(markers := c.markers + [Current(c).(restoreAsk := ask, fromBackup := from, target := target)])
    case BackupAsked(ask) =>
      if c.markers == [] then c else c.(markers := c.markers + [Current(c).(backupAsk := ask)])
    case BackupReaches(name, phase) => c.(backups := c.backups[name := phase])
    case RestoreReaches(i, phase) =>
      if i < |c.restores| && IsActive(c.restores[i]) then
        c.(restores := c.restores[i := c.restores[i].(phase := phase)])
      else c
    case VeleroRebuilds(external, deployment, statefulSet, etcd) =>
      if FirstActive(c.restores).Some? then Rebuilt(c, external, deployment, statefulSet, etcd) else c
    case VolumeReleased(external) => if Volume(c, external) == Terminating then WithVolume(c, external, Gone) else c
    case FluxRebuilds(external, deployment, statefulSet, etcd) =>
      if !c.helmSuspended then Rebuilt(c, external, deployment, statefulSet, etcd) else c
    case Restarted => c.(resolved := {})
  }

  function HappenAll(c: Site, es: seq<Event>): Site {
    if es == [] then c else Happen(HappenAll(c, es[..|es| - 1]), es[|es| - 1])
  }

  // ---- the operator's calls ----

  type Turn = TurnOf<Event>

  function At(c: Site, t: Turn): Site {
    HappenAll(c, t.before)
  }

  function Logged(c: Site, e: Entry): Site {
    c.(log := c.log + [e])
  }

  /** How a call, or a stage made of calls, ends. */
  datatype Flow = Fine | Fault | Dead

  function FlowOf(t: Turn): Flow {
    if t.fate == Served then Fine else if t.fate == Killed then Dead else Fault
  }

  function GetBackupPhase(c: Site, t: Turn, name: string): (Site, Option<string>) {
    var c := At(c, t);
    if t.fate == Served && name in c.backups then (Logged(c, ReadBackup(name, c.backups[name])), Some(c.backups[name]))
    else (c, None)
  }

  function PatchHelmRelease(c: Site, t: Turn, suspend: bool): (Site, Flow) {
    var c := At(c, t);
    (if TakesEffect(t) then Logged(c.(helmSuspended := suspend), PatchedHelmRelease(suspend)) else c, FlowOf(t))
  }

  function PatchKustomization(c: Site, t: Turn, suspend: bool): (Site, Flow) {
    var c := At(c, t);
    (if TakesEffect(t) then Logged(c.(kustomizationSuspended := suspend), PatchedKustomization(suspend)) else c, FlowOf(t))
  }

  /** Two patches, one after the other: a failure of the first leaves the second undone. */
  function SetFluxSuspend(c: Site, helm: Turn, kustomization: Turn, suspend: bool): (Site, Flow) {
    var (c1, f1) := PatchHelmRelease(c, helm, suspend);
    if f1 != Fine then (c1, f1) else PatchKustomization(c1, kustomization, suspend)
  }

  /** Which workloads and which volume a vcluster has. */
  datatype Topology = Topology(deployment: bool, external: bool)

  /** detectVClusterTopology: asks for the etcd StatefulSet, then, if there is one, for a
      control-plane StatefulSet; only a served answer makes the control plane one. */
  function Detect(c: Site, etcd: Turn, controlPlane: Turn): (Site, Flow, Topology) {
    var c1 := At(c, etcd);
    if etcd.fate != Served then (c1, FlowOf(etcd), Topology(false, false))
    else if !c1.etcd then (c1, Fine, Topology(false, false))
    else
      var c2 := At(c1, controlPlane);
      if !Alive(controlPlane) then (c2, Dead, Topology(false, false))
      else (c2, Fine, Topology(!(controlPlane.fate == Served && c2.statefulSet), true))
  }

  /** Reading a workload's pod selector; an absent workload is nothing to wait for. */
  function ReadSelector(c: Site, t: Turn): (Site, Flow) {
    (At(c, t), FlowOf(t))
  }

  /** Deleting a workload that is not there is a success. */
  function DeleteControlPlane(c: Site, t: Turn, deployment: bool): (Site, Flow) {
    var c := At(c, t);
    (if !TakesEffect(t) then c
     else if deployment then Logged(c.(deployment := false), DeletedDeployment)
     else Logged(c.(statefulSet := false), DeletedStatefulSet), FlowOf(t))
  }

  function DeleteEtcd(c: Site, t: Turn): (Site, Flow) {
    var c := At(c, t);
    (if TakesEffect(t) then Logged(c.(etcd := false), DeletedEtcd) else c, FlowOf(t))
  }

  datatype VolumeDeletion = VolumeDeleted | VolumeNotFound | VolumeKept | VolumeDead

  function DeleteVolume(c: Site, t: Turn, external: bool): (Site, VolumeDeletion) {
    var c := At(c, t);
    var there := Volume(c, external) != Gone;
    (if TakesEffect(t) && there then Logged(WithVolume(c, external, Terminating), DeletedVolume(external)) else c,
     if t.fate == Killed then VolumeDead
     else if t.fate != Served then VolumeKept
     else if there then VolumeDeleted else VolumeNotFound)
  }

  /** Creating a Restore, from a backup; under a name already taken it is refused. */
  function CreateRestore(c: Site, t: Turn, name: string, from: string): (Site, Flow) {
    var c := At(c, t);
    if Named(c.restores, name).Some? && TakesEffect(t) then (c, Fault)
    else if TakesEffect(t) then
      (Logged(c.(restores := c.restores + [Restore(name, "")]), CreatedRestore(name, from)), FlowOf(t))
    else (c, FlowOf(t))
  }

  /** GetRestoreStatus: a restore without a phase yet is New. */
  function GetRestorePhase(c: Site, t: Turn, name: string): (Site, Option<string>) {
    var c := At(c, t);
    if t.fate != Served then (c, None)
    else
      match Named(c.restores, name)
      case None => (c, None)
      case Some(r) =>
        var phase := if r.phase == "" then "New" else r.phase;
        (Logged(c, PolledRestore(name, phase)), Some(phase))
  }

  function ListActive(c: Site, t: Turn): (Site, Flow, Option<Restore>) {
    var c := At(c, t);
    (c, FlowOf(t), FirstActive(c.restores))
  }

  /** GetVClusterPVCState, on the topology as it is detected now. */
  function ReadVolume(c: Site, etcd: Turn, controlPlane: Turn, pvc: Turn): (Site, Flow, Pvc) {
    var (c1, f, topo) := Detect(c, etcd, controlPlane);
    if f != Fine then (c1, f, Gone)
    else
      var c2 := At(c1, pvc);
      (c2, FlowOf(pvc), Volume(c2, topo.external))
  }

  /** A status update lands only on the version its copy was read from; it leaves the
      annotations alone. */
  function StoreStatus(c: Site, t: Turn, version: nat, st: OpsStatus): (Site, Flow) {
    var c := At(c, t);
    var lands := TakesEffect(t) && version + 1 == |c.markers|;
    (if lands then c.(markers := c.markers + [Current(c).(status := st)]) else c,
     if t.fate == Killed then Dead else if lands && t.fate == Served then Fine else Fault)
  }
}
