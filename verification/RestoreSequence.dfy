/**
 The destructive sequence of an in-place restore: check the backup, suspend Flux, delete
 the workloads, delete the data volume, create the Restore. Deleting the volume is the
 point of no return.
 */
module RestoreSequence {
  import opened Wrappers
  import opened Turns
  import opened Conditions
  import opened VClusters
  import opened RestoreWorld

  /** A turn for every call a reconcile of the restore can make. */
  datatype Calls = Calls(
    backup: Turn, suspendHelm: Turn, suspendKustomization: Turn,
    detectEtcd: Turn, detectControlPlane: Turn, selector: Turn, etcdSelector: Turn,
    deleteControlPlane: Turn, deleteEtcd: Turn, deleteVolume: Turn,
    resumeHelm: Turn, resumeKustomization: Turn,
    create: Turn, name: string)

  datatype Result =
    | Made(name: string)
    | NotAttempted
    | BackupLookupFailed
    | BackupNotRestorable
    | StageFailure
    | StageFailureVolumeGone
    | Died

  datatype Go = Go(c: Site, r: Result)

  /** [a-z0-9][a-z0-9.-]* */
  predicate ValidBackupName(name: string) {
    && name != ""
    && ('a' <= name[0] <= 'z' || '0' <= name[0] <= '9')
    && forall ch | ch in name :: 'a' <= ch <= 'z' || '0' <= ch <= '9' || ch == '.' || ch == '-'
  }

  /** Puts Flux back after a stage failed; its own failure changes nothing to the result. */
  function Abort(c: Site, k: Calls): Go {
    var (c1, f) := SetFluxSuspend(c, k.resumeHelm, k.resumeKustomization, false);
    Go(c1, if f == Dead then Died else StageFailure)
  }

  function CreateStage(c: Site, from: string, k: Calls): Go {
    var (c1, f) := CreateRestore(c, k.create, k.name, from);
    Go(c1, match f case Fine => Made(k.name) case Fault => StageFailureVolumeGone case Dead => Died)
  }

  function VolumeStage(c: Site, topo: Topology, from: string, k: Calls): Go {
    var (c1, v) := DeleteVolume(c, k.deleteVolume, topo.external);
    match v
    case VolumeDead => Go(c1, Died)
    case VolumeKept => Abort(c1, k)
    case _ => CreateStage(c1, from, k)
  }

  /** Deletes the workloads of the topology it detects, and says which that was. */
  function Quiesce(c: Site, k: Calls): (Site, Flow, Topology) {
    var (c1, f1, topo) := Detect(c, k.detectEtcd, k.detectControlPlane);
    if f1 != Fine then (c1, f1, topo)
    else
      var (c2, f2) := ReadSelector(c1, k.selector);
      if f2 != Fine then (c2, f2, topo)
      else
        var (c3, f3) := if topo.external then ReadSelector(c2, k.etcdSelector) else (c2, Fine);
        if f3 != Fine then (c3, f3, topo)
        else
          var (c4, f4) := DeleteControlPlane(c3, k.deleteControlPlane, topo.deployment);
          if f4 != Fine then (c4, f4, topo)
          else
            var (c5, f5) := if topo.external then DeleteEtcd(c4, k.deleteEtcd) else (c4, Fine);
            (c5, f5, topo)
  }

  function QuiesceStage(c: Site, from: string, k: Calls): Go {
    var (c1, f, topo) := Quiesce(c, k);
    match f
    case Dead => Go(c1, Died)
    case Fault => Abort(c1, k)
    case Fine => VolumeStage(c1, topo, from, k)
  }

  /** A failed suspension returns at once: nothing is put back. */
  function SuspendStage(c: Site, from: string, k: Calls): Go {
    var (c1, f) := SetFluxSuspend(c, k.suspendHelm, k.suspendKustomization, true);
    match f
    case Dead => Go(c1, Died)
    case Fault => Go(c1, StageFailure)
    case Fine => QuiesceStage(c1, from, k)
  }

  predicate Attemptable(name: string, backup: string, target: string) {
    backup != "" && ValidBackupName(backup) && (target == "" || (ValidName(target) && target == name))
  }

  function Create(c: Site, name: string, backup: string, target: string, k: Calls): Go {
    if !Attemptable(name, backup, target) then Go(c, NotAttempted)
    else
      var (c1, phase) := GetBackupPhase(c, k.backup, backup);
      if !Alive(k.backup) then Go(c1, Died)
      else if phase == None then Go(c1, BackupLookupFailed)
      else if phase.value != "Completed" then Go(c1, BackupNotRestorable)
      else SuspendStage(c1, backup, k)
  }

  /** The service, acting on the site. */
  class Service {
    var c: Site

    constructor (c: Site)
      ensures this.c == c
    {
      this.c := c;
    }

    method AbortInPlace(k: Calls) returns (r: Result)
      modifies this
      ensures Go(c, r) == Abort(old(c), k)
    {
      var (c1, f) := SetFluxSuspend(c, k.resumeHelm, k.resumeKustomization, false);
      c := c1;
      return if f == Dead then Died else StageFailure;
    }

    method QuiesceVClusterForInPlaceRestore(k: Calls) returns (f: Flow, topo: Topology)
      modifies this
      ensures (c, f, topo) == Quiesce(old(c), k)
    {
      hide Detect, DeleteControlPlane, DeleteEtcd, ReadSelector;
      var (c1, f1, t) := Detect(c, k.detectEtcd, k.detectControlPlane);
      c := c1;
      f, topo := f1, t;
      if f != Fine {
        return;
      }
      var (c2, f2) := ReadSelector(c, k.selector);
      c, f := c2, f2;
      if f != Fine {
        return;
      }
      if topo.external {
        var (c3, f3) := ReadSelector(c, k.etcdSelector);
        c, f := c3, f3;
        if f != Fine {
          return;
        }
      }
      var (c4, f4) := DeleteControlPlane(c, k.deleteControlPlane, topo.deployment);
      c, f := c4, f4;
      if f != Fine {
        return;
      }
      if topo.external {
        var (c5, f5) := DeleteEtcd(c, k.deleteEtcd);
        c, f := c5, f5;
      }
    }

    method CreateVeleroRestore(name: string, backup: string, target: string, k: Calls) returns (r: Result)
      modifies this
      ensures Go(c, r) == Create(old(c), name, backup, target, k)
    {
      hide GetBackupPhase, SetFluxSuspend, Quiesce, Abort, Attemptable, DeleteVolume, CreateRestore;
      if !Attemptable(name, backup, target) {
        return NotAttempted;
      }
      var (c1, phase) := GetBackupPhase(c, k.backup, backup);
      c := c1;
      if !Alive(k.backup) {
        return Died;
      }
      if phase == None {
        return BackupLookupFailed;
      }
      if phase.value != "Completed" {
        return BackupNotRestorable;
      }
      var (c2, f) := SetFluxSuspend(c, k.suspendHelm, k.suspendKustomization, true);
      c := c2;
      if f == Dead {
        return Died;
      }
      if f == Fault {
        return StageFailure;
      }
      var quiet, topo := QuiesceVClusterForInPlaceRestore(k);
      if quiet == Dead {
        return Died;
      }
      if quiet == Fault {
        r := AbortInPlace(k);
        return;
      }
      var (c3, v) := DeleteVolume(c, k.deleteVolume, topo.external);
      c := c3;
      if v == VolumeDead {
        return Died;
      }
      if v == VolumeKept {
        r := AbortInPlace(k);
        return;
      }
      var (c4, made) := CreateRestore(c, k.create, k.name, backup);
      c := c4;
      return match made case Fine => Made(k.name) case Fault => StageFailureVolumeGone case Dead => Died;
    }
  }
}
