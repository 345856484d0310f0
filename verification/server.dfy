/** The server reconciler for a server that already exists
    (internal/controller/hcloudserver_controller.go:166-403 and 466-512): the resize state
    machine, the private-network migration, the placement-group check and the status sync.
    `ReconcileExisting` is the specification; class `ServerReconciler` does the same in place. */
module ServerController {
  import opened Prelude
  import opened ServerCloud

  /** A reference to another object, resolved: not set, not usable yet, or its recorded ID. */
  datatype Ref = NoRef | Broken | Refers(id: ID)

  /** A recorded ID; zero means that nothing is recorded. */
  type ID = n: nat | 0 < n witness 1

  datatype Spec = Spec(kind: string, upgradeDisk: bool, net: Ref, pg: Ref)

  datatype Reason =
    | ServerCreated
    | PoweringOn
    | Resizing
    | NetworkAttached
    | NetworkMigrated
    | NetworkDetached
    | PlacementGroupMismatch
    | ServerRunning
    | ResizePending
    | ServerNotReady

  datatype Ready = Ready(yes: bool, reason: Reason)

  datatype Status = Status(
    serverID: nat, power: Power, appliedKind: string, appliedNet: nat, appliedPG: nat, ready: Option<Ready>)

  /** The call sites of one pass; each is reached at most once. */
  datatype Site =
    | AtFetch
    | AtPowerOff | AfterPowerOff
    | AtChange | AfterChange
    | AtPowerOn | AfterPowerOn
    | AtDetach | AfterDetach
    | AtAttach | AfterAttach

  /** What the world does during one pass: around every call, and to the pass's own status write. */
  datatype Script = Script(beat: Site -> Beat, writes: bool)

  /** Where a pass that returned no error stopped. */
  datatype Stage = Resize | PowerUp | NetworkChanged | Blocked | Synced

  /** `Panicked`: the refreshed server was gone and its fields were read all the same. */
  datatype End = Finished(stage: Stage) | Errored(fault: Fault) | Panicked

  datatype Outcome = Outcome(host: Host, status: Status, end: End)

  function SetReady(st: Status, yes: bool, reason: Reason): Status {
    st.(ready := Some(Ready(yes, reason)))
  }

  function Observe(st: Status, id: nat, s: Server): Status {
    st.(serverID := id, power := s.power)
  }

  /** The status write that closes every successful stage. */
  function Written(h: Host, st: Status, stage: Stage, sc: Script): Outcome {
    Outcome(h, st, if sc.writes then Finished(stage) else Errored(StatusWrite))
  }

  // ---------- type mismatch ----------

  /** After a power or type call: refresh, copy what is seen, record why the server is not ready. */
  function Refreshed(d: Did<()>, b: Beat, id: nat, st: Status, reason: Reason, stage: Stage, sc: Script): Outcome {
    match d.reply
    case Failed(f) => Outcome(d.host, st, Errored(f))
    case Got(_) =>
      var g := HostGet(d.host, b);
      match g.reply
      case Failed(f) => Outcome(g.host, st, Errored(f))
      case Got(None) => Outcome(g.host, st, Panicked)
      case Got(Some(s)) => Written(g.host, SetReady(Observe(st, id, s), false, reason), stage, sc)
  }

  function TypeMismatch(spec: Spec, h: Host, id: nat, st: Status, s: Server, sc: Script): Outcome {
    match s.power
    case Running =>
      Refreshed(HostPowerOff(h, sc.beat(AtPowerOff)), sc.beat(AfterPowerOff), id, st, Resizing, Resize, sc)
    case Off =>
      Refreshed(HostChangeType(h, spec.kind, spec.upgradeDisk, sc.beat(AtChange)), sc.beat(AfterChange),
                id, st, Resizing, Resize, sc)
    case Deleting => Outcome(h, st, Errored(UnsupportedState))
    case Unknown => Outcome(h, st, Errored(UnsupportedState))
    case _ => Written(h, SetReady(Observe(st, id, s), false, Resizing), Resize, sc)
  }

  // ---------- private network ----------

  /** The state after a network step; `reply` says whether the caller must requeue. */
  datatype NetStep = NetStep(host: Host, status: Status, s: Server, reply: Reply<bool>)

  /** Detach the recorded network and forget it. */
  function DropNetwork(h: Host, st: Status, s: Server, sc: Script): NetStep {
    var d := HostDetach(h, st.appliedNet, sc.beat(AtDetach));
    match d.reply
    case Failed(f) => NetStep(d.host, st, s, Failed(f))
    case Got(_) =>
      var g := HostGet(d.host, sc.beat(AfterDetach));
      match g.reply
      case Failed(f) => NetStep(g.host, st, s, Failed(f))
      case Got(seen) => NetStep(g.host, st.(appliedNet := 0), if seen.Some? then seen.value else s, Got(true))
  }

  function NetworkNote(st: Status, migrated: bool): Status {
    var reason := if st.ready.Some? then Some(st.ready.value.reason) else None;
    if migrated && reason != Some(NetworkMigrated) then SetReady(st, true, NetworkMigrated)
    else if !migrated && reason != Some(NetworkAttached) && reason != Some(NetworkMigrated) then
      SetReady(st, true, NetworkAttached)
    else st
  }

  function JoinNetwork(h: Host, st: Status, s: Server, net: nat, migrated: bool, sc: Script): NetStep {
    if net in s.nets then
      NetStep(h, NetworkNote(st.(appliedNet := net), migrated), s, Got(false))
    else
      var a := HostAttach(h, net, sc.beat(AtAttach));
      match a.reply
      case Failed(f) => NetStep(a.host, st, s, Failed(f))
      case Got(_) =>
        var g := HostGet(a.host, sc.beat(AfterAttach));
        match g.reply
        case Failed(f) => NetStep(g.host, st, s, Failed(f))
        case Got(seen) =>
          NetStep(g.host,
                  SetReady(st, true, if migrated then NetworkMigrated else NetworkAttached).(appliedNet := net),
                  if seen.Some? then seen.value else s, Got(true))
  }

  function EnsureNetwork(spec: Spec, h: Host, st: Status, s: Server, sc: Script): NetStep {
    match spec.net
    case NoRef =>
      if st.appliedNet == 0 then NetStep(h, st, s, Got(false))
      else
        var d := DropNetwork(h, st, s, sc);
        if d.reply.Failed? then d else d.(status := SetReady(d.status, true, NetworkDetached))
    case Broken => NetStep(h, st, s, Failed(Unresolved))
    case Refers(net) =>
      if st.appliedNet != 0 && st.appliedNet != net then
        var d := DropNetwork(h, st, s, sc);
        if d.reply.Failed? then d else JoinNetwork(d.host, d.status, d.s, net, true, sc)
      else JoinNetwork(h, st, s, net, false, sc)
  }

  // ---------- placement group and status ----------

  predicate NetworkReason(r: Reason) { r.NetworkAttached? || r.NetworkMigrated? || r.NetworkDetached? }

  function SyncStatus(spec: Spec, id: nat, st0: Status, s: Server): Status {
    var st := Observe(st0, id, s);
    if s.kind == spec.kind && s.power.Running? then
      var done := st.(appliedKind := spec.kind);
      if done.ready.Some? && done.ready.value.yes && NetworkReason(done.ready.value.reason) then done
      else SetReady(done, true, ServerRunning)
    else if s.power.Running? && s.kind != "" && s.kind != spec.kind then SetReady(st, false, ResizePending)
    else SetReady(st, false, ServerNotReady)
  }

  /** The placement-group check, then the sync. */
  function Settle(spec: Spec, h: Host, id: nat, st: Status, s: Server, sc: Script): Outcome {
    match spec.pg
    case NoRef => Written(h, SyncStatus(spec, id, st.(appliedPG := s.pg), s), Synced, sc)
    case Broken => Outcome(h, st, Errored(Unresolved))
    case Refers(pg) =>
      var seen := st.(appliedPG := s.pg);
      if s.pg != pg then Written(h, SetReady(seen, false, PlacementGroupMismatch), Blocked, sc)
      else Written(h, SyncStatus(spec, id, seen, s), Synced, sc)
  }

  /** A pass that changed the network stops there; the others go on to the sync. */
  function AfterNetwork(spec: Spec, n: NetStep, id: nat, sc: Script): Outcome {
    match n.reply
    case Failed(f) => Outcome(n.host, n.status, Errored(f))
    case Got(true) => Written(n.host, Observe(n.status, id, n.s), NetworkChanged, sc)
    case Got(false) => Settle(spec, n.host, id, n.status, n.s, sc)
  }

  /** One pass over an existing server, last seen as `s`. */
  function ReconcileExisting(spec: Spec, h: Host, id: nat, st: Status, s: Server, sc: Script): Outcome {
    if s.kind != "" && s.kind != spec.kind then TypeMismatch(spec, h, id, st, s, sc)
    else if st.appliedKind != spec.kind && s.power.Off? then
      Refreshed(HostPowerOn(h, sc.beat(AtPowerOn)), sc.beat(AfterPowerOn), id, st, PoweringOn, PowerUp, sc)
    else
      AfterNetwork(spec, EnsureNetwork(spec, h, st, s, sc), id, sc)
  }

  // ---------- the same reconciler, in place ----------

  class HCloudServer {
    const name: string
    var spec: Spec
    var status: Status

    constructor (name: string, spec: Spec, status: Status)
      ensures this.name == name && this.spec == spec && this.status == status
    {
      this.name, this.spec, this.status := name, spec, status;
    }
  }

  class ServerReconciler {
    const cloud: FakeServers

    constructor (cloud: FakeServers)
      ensures this.cloud == cloud
    {
      this.cloud := cloud;
    }

    method ReconcileExistingServer(obj: HCloudServer, id: nat, s: Server, sc: Script) returns (end: End)
      modifies obj`status, cloud
      ensures Outcome(cloud.HostOf(id), obj.status, end)
           == ReconcileExisting(obj.spec, old(cloud.HostOf(id)), id, old(obj.status), s, sc)
      ensures cloud.OnlyTouched(id)
    {
      if s.kind != "" && s.kind != obj.spec.kind {
        end := ReconcileServerTypeMismatch(obj, id, s, sc);
        return;
      }
      if obj.status.appliedKind != obj.spec.kind && s.power.Off? {
        var r := cloud.PowerOnServer(id, sc.beat(AtPowerOn));
        if r.Failed? { return Errored(r.fault); }
        var seen := cloud.GetServer(id, sc.beat(AfterPowerOn));
        end := Finish(obj, id, seen, PoweringOn, PowerUp, sc);
        return;
      }
      var s', changed := EnsureServerNetworkAttachment(obj, id, s, sc);
      if changed.Failed? { return Errored(changed.fault); }
      if changed.value {
        obj.status := Observe(obj.status, id, s');
        return if sc.writes then Finished(NetworkChanged) else Errored(StatusWrite);
      }
      match obj.spec.pg {
        case NoRef => obj.status := obj.status.(appliedPG := s'.pg);
        case Broken => return Errored(Unresolved);
        case Refers(pg) =>
          obj.status := obj.status.(appliedPG := s'.pg);
          if s'.pg != pg {
            obj.status := SetReady(obj.status, false, PlacementGroupMismatch);
            return if sc.writes then Finished(Blocked) else Errored(StatusWrite);
          }
      }
      SyncServerStatus(obj, id, s');
      end := if sc.writes then Finished(Synced) else Errored(StatusWrite);
    }

    method ReconcileServerTypeMismatch(obj: HCloudServer, id: nat, s: Server, sc: Script) returns (end: End)
      modifies obj`status, cloud
      ensures Outcome(cloud.HostOf(id), obj.status, end)
           == TypeMismatch(obj.spec, old(cloud.HostOf(id)), id, old(obj.status), s, sc)
      ensures cloud.OnlyTouched(id)
    {
      match s.power {
        case Running =>
          var r := cloud.PowerOffServer(id, sc.beat(AtPowerOff));
          if r.Failed? { return Errored(r.fault); }
          var seen := cloud.GetServer(id, sc.beat(AfterPowerOff));
          end := Finish(obj, id, seen, Resizing, Resize, sc);
        case Off =>
          var r := cloud.ChangeServerType(id, obj.spec.kind, obj.spec.upgradeDisk, sc.beat(AtChange));
          if r.Failed? { return Errored(r.fault); }
          var seen := cloud.GetServer(id, sc.beat(AfterChange));
          end := Finish(obj, id, seen, Resizing, Resize, sc);
        case Deleting => end := Errored(UnsupportedState);
        case Unknown => end := Errored(UnsupportedState);
        case _ =>
          obj.status := SetReady(Observe(obj.status, id, s), false, Resizing);
          end := if sc.writes then Finished(Resize) else Errored(StatusWrite);
      }
    }

    /** Copy a refreshed server into the status and write it. */
    method Finish(obj: HCloudServer, id: nat, seen: Reply<Option<Server>>, reason: Reason, stage: Stage, sc: Script)
      returns (end: End)
      modifies obj`status
      ensures match seen
              case Failed(f) => obj.status == old(obj.status) && end == Errored(f)
              case Got(None) => obj.status == old(obj.status) && end == Panicked
              case Got(Some(s)) =>
                && obj.status == SetReady(Observe(old(obj.status), id, s), false, reason)
                && end == if sc.writes then Finished(stage) else Errored(StatusWrite)
    {
      if seen.Failed? { return Errored(seen.fault); }
      if seen.value.None? { return Panicked; }
      obj.status := Observe(obj.status, id, seen.value.value);
      obj.status := SetReady(obj.status, false, reason);
      end := if sc.writes then Finished(stage) else Errored(StatusWrite);
    }

    method EnsureServerNetworkAttachment(obj: HCloudServer, id: nat, s0: Server, sc: Script)
      returns (s: Server, changed: Reply<bool>)
      modifies obj`status, cloud
      ensures NetStep(cloud.HostOf(id), obj.status, s, changed)
           == EnsureNetwork(obj.spec, old(cloud.HostOf(id)), old(obj.status), s0, sc)
      ensures cloud.OnlyTouched(id)
    {
      s := s0;
      if obj.spec.net.NoRef? {
        if obj.status.appliedNet == 0 { return s, Got(false); }
        s, changed := DetachManaged(obj, id, s, sc);
        if changed.Got? { obj.status := SetReady(obj.status, true, NetworkDetached); }
        return;
      }
      if obj.spec.net.Broken? { return s, Failed(Unresolved); }
      var net := obj.spec.net.id;
      var migrated := false;
      if obj.status.appliedNet != 0 && obj.status.appliedNet != net {
        s, changed := DetachManaged(obj, id, s, sc);
        if changed.Failed? { return; }
        migrated := true;
      }
      if net !in s.nets {
        var r := cloud.AttachServerToNetwork(id, net, sc.beat(AtAttach));
        if r.Failed? { return s, Failed(r.fault); }
        var seen := cloud.GetServer(id, sc.beat(AfterAttach));
        if seen.Failed? { return s, Failed(seen.fault); }
        if seen.value.Some? { s := seen.value.value; }
        obj.status := SetReady(obj.status, true, if migrated then NetworkMigrated else NetworkAttached);
        obj.status := obj.status.(appliedNet := net);
        return s, Got(true);
      }
      obj.status := NetworkNote(obj.status.(appliedNet := net), migrated);
      changed := Got(false);
    }

    /** Detach from the recorded network, refresh, and clear the record. */
    method DetachManaged(obj: HCloudServer, id: nat, s0: Server, sc: Script)
      returns (s: Server, done: Reply<bool>)
      modifies obj`status, cloud
      ensures NetStep(cloud.HostOf(id), obj.status, s, done)
           == DropNetwork(old(cloud.HostOf(id)), old(obj.status), s0, sc)
      ensures cloud.OnlyTouched(id)
    {
      s := s0;
      var r := cloud.DetachServerFromNetwork(id, obj.status.appliedNet, sc.beat(AtDetach));
      if r.Failed? { return s, Failed(r.fault); }
      var seen := cloud.GetServer(id, sc.beat(AfterDetach));
      if seen.Failed? { return s, Failed(seen.fault); }
      if seen.value.Some? { s := seen.value.value; }
      obj.status := obj.status.(appliedNet := 0);
      done := Got(true);
    }

    method SyncServerStatus(obj: HCloudServer, id: nat, s: Server)
      modifies obj`status
      ensures obj.status == SyncStatus(obj.spec, id, old(obj.status), s)
    {
      obj.status := Observe(obj.status, id, s);
      if s.kind == obj.spec.kind && s.power.Running? {
        obj.status := obj.status.(appliedKind := obj.spec.kind);
        if !(obj.status.ready.Some? && obj.status.ready.value.yes && NetworkReason(obj.status.ready.value.reason)) {
          obj.status := SetReady(obj.status, true, ServerRunning);
        }
      } else if s.power.Running? && s.kind != "" && s.kind != obj.spec.kind {
        obj.status := SetReady(obj.status, false, ResizePending);
      } else {
        obj.status := SetReady(obj.status, false, ServerNotReady);
      }
    }
  }
}
