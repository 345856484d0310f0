/** The whole server pass: fetch by the recorded ID, adopt by name, or create
    (internal/controller/hcloudserver_controller.go:101-164). */
module ServerLookup {
  import opened Prelude
  import opened ServerCloud
  import opened ServerController

  // ---------- what a pass over an existing server cannot do ----------

  /** The server is gone or has the name it had. */
  ghost predicate Kept(a: Host, b: Host) {
    b.server.Some? ==> a.server.Some? && b.server.value.name == a.server.value.name
  }

  /** The pass keeps the server's name, records no other ID, and never hears "already exists". */
  ghost predicate KeepsName(h: Host, id: nat, st: Status, o: Outcome) {
    && Kept(h, o.host) && o.end != Errored(AlreadyExists)
    && (o.status.serverID == st.serverID || o.status.serverID == id)
  }

  ghost predicate StepKeepsName(h: Host, st: Status, n: NetStep) {
    Kept(h, n.host) && n.reply != Failed(AlreadyExists) && n.status.serverID == st.serverID
  }

  lemma RefreshedKeeps(h: Host, d: Did<()>, b: Beat, id: nat, st: Status, reason: Reason, stage: Stage, sc: Script)
    requires Kept(h, d.host) && d.reply != Failed(AlreadyExists)
    ensures var o := Refreshed(d, b, id, st, reason, stage, sc); KeepsName(h, id, st, o)
  {
  }

  lemma MismatchKeeps(spec: Spec, h: Host, id: nat, st: Status, s: Server, sc: Script)
    ensures KeepsName(h, id, st, TypeMismatch(spec, h, id, st, s, sc))
  {
    if s.power.Running? {
      RefreshedKeeps(h, HostPowerOff(h, sc.beat(AtPowerOff)), sc.beat(AfterPowerOff), id, st, Resizing, Resize, sc);
    } else if s.power.Off? {
      RefreshedKeeps(h, HostChangeType(h, spec.kind, spec.upgradeDisk, sc.beat(AtChange)), sc.beat(AfterChange),
                     id, st, Resizing, Resize, sc);
    }
  }

  lemma DropKeeps(h: Host, st: Status, s: Server, sc: Script)
    ensures var n := DropNetwork(h, st, s, sc); StepKeepsName(h, st, n)
  {
  }

  lemma JoinKeeps(h: Host, st: Status, s: Server, net: nat, migrated: bool, sc: Script)
    ensures var n := JoinNetwork(h, st, s, net, migrated, sc); StepKeepsName(h, st, n)
  {
  }

  lemma EnsureKeeps(spec: Spec, h: Host, st: Status, s: Server, sc: Script)
    ensures var n := EnsureNetwork(spec, h, st, s, sc); StepKeepsName(h, st, n)
  {
    DropKeeps(h, st, s, sc);
    var d := DropNetwork(h, st, s, sc);
    if spec.net.Refers? {
      JoinKeeps(h, st, s, spec.net.id, false, sc);
      JoinKeeps(d.host, d.status, d.s, spec.net.id, true, sc);
    }
  }

  lemma ExistingKeeps(spec: Spec, h: Host, id: nat, st: Status, s: Server, sc: Script)
    ensures KeepsName(h, id, st, ReconcileExisting(spec, h, id, st, s, sc))
  {
    if s.kind != "" && s.kind != spec.kind {
      MismatchKeeps(spec, h, id, st, s, sc);
    } else if st.appliedKind != spec.kind && s.power.Off? {
      RefreshedKeeps(h, HostPowerOn(h, sc.beat(AtPowerOn)), sc.beat(AfterPowerOn), id, st, PoweringOn, PowerUp, sc);
    } else {
      EnsureKeeps(spec, h, st, s, sc);
    }
  }

  // ---------- the pass ----------

  /** The status after a create that was answered. */
  function Created(spec: Spec, id: nat, st: Status, s: Server): Status {
    var seen := Observe(st, id, s);
    var placed := if s.pg != 0 then seen.(appliedPG := s.pg) else seen;
    var typed := if s.kind == spec.kind && s.power.Running? then placed.(appliedKind := spec.kind) else placed;
    SetReady(typed, true, ServerCreated)
  }

  /** The new server is recorded as it is: its type as the wanted one only if it runs with that
      type, its group if it has one, ready because it was created, the network untouched. */
  predicate RecordsCreated(spec: Spec, id: nat, st: Status, s: Server, after: Status) {
    && after.serverID == id && after.power == s.power && after.ready == Some(Ready(true, ServerCreated))
    && (s.kind == spec.kind && s.power == Running ==> after.appliedKind == spec.kind)
    && (s.kind != spec.kind || s.power != Running ==> after.appliedKind == st.appliedKind)
    && (s.pg != 0 ==> after.appliedPG == s.pg) && (s.pg == 0 ==> after.appliedPG == st.appliedPG)
    && after.appliedNet == st.appliedNet
  }

  /** How the calls around the lookup fare. */
  datatype Lookup = Lookup(byName: Fate, create: Fate, slow: bool)

  /** `Found`: a pass over the server `id`.  `Made`: a new one, whose record was stored or not. */
  datatype Way = Found(id: nat, end: End) | Made(id: nat, stored: bool) | Stopped(fault: Fault)

  lemma Elsewhere(was: map<nat, Server>, now: map<nat, Server>, id: nat)
    requires now - {id} == was - {id}
    ensures forall j :: j != id ==> (j in now <==> j in was) && (j in now ==> now[j] == was[j])
  {
    forall j | j != id ensures (j in now <==> j in was) && (j in now ==> now[j] == was[j]) {
      assert j in now <==> j in now - {id};
      assert j in was <==> j in was - {id};
      if j in now { assert now[j] == (now - {id})[j] == (was - {id})[j] == was[j]; }
    }
  }

  class HCloudServerReconciler {
    const cloud: FakeServers
    const inner: ServerReconciler

    constructor (cloud: FakeServers)
      ensures this.cloud == cloud && inner.cloud == cloud
    {
      this.cloud := cloud;
      inner := new ServerReconciler(cloud);
    }

    /** A pass over a server found in the cloud; names stay unique. */
    method ReconcileFound(obj: HCloudServer, id: nat, sc: Script) returns (end: End)
      requires inner.cloud == cloud && cloud.Valid() && id in cloud.servers && obj.status.serverID == id
      modifies obj`status, cloud
      ensures Outcome(cloud.HostOf(id), obj.status, end)
           == ReconcileExisting(obj.spec, old(cloud.HostOf(id)), id, old(obj.status), old(cloud.servers[id]), sc)
      ensures cloud.Spared({id}) && cloud.nextID == old(cloud.nextID) && cloud.Valid()
      ensures end != Errored(AlreadyExists) && obj.status.serverID == id
      ensures id in cloud.servers ==> cloud.servers[id].name == old(cloud.servers[id].name)
    {
      ExistingKeeps(obj.spec, cloud.HostOf(id), id, obj.status, cloud.servers[id], sc);
      end := inner.ReconcileExistingServer(obj, id, cloud.servers[id], sc);
      Elsewhere(old(cloud.servers), cloud.servers, id);
    }

    /** Fetch by the recorded ID; a server that drifted or vanished leaves the names unique. */
    method Fetch(obj: HCloudServer, sc: Script) returns (r: Reply<Option<Server>>)
      requires cloud.Valid()
      modifies cloud
      ensures var id := obj.status.serverID;
              Did(cloud.HostOf(id), r) == HostGet(old(cloud.HostOf(id)), sc.beat(AtFetch))
      ensures cloud.Spared({obj.status.serverID}) && cloud.nextID == old(cloud.nextID) && cloud.Valid()
      ensures obj.status.serverID in cloud.servers ==>
                obj.status.serverID in old(cloud.servers)
                && cloud.servers[obj.status.serverID].name == old(cloud.servers)[obj.status.serverID].name
    {
      ghost var id := obj.status.serverID;
      r := cloud.GetServer(obj.status.serverID, sc.beat(AtFetch));
      Elsewhere(old(cloud.servers), cloud.servers, id);
    }

    /** Create the server once no other has its name. */
    method Provision(obj: HCloudServer, l: Lookup, sc: Script) returns (way: Way)
      requires cloud.Valid() && !cloud.Taken(obj.name)
      modifies obj`status, cloud
      ensures cloud.Valid() && (way.Made? || way == Stopped(Unresolved) || way == Stopped(Transport))
      ensures way.Stopped? ==> obj.status == old(obj.status)
      ensures way.Made? ==>
                && way.id == old(cloud.nextID) && way.id in cloud.servers && way.stored == sc.writes
                && cloud.servers[way.id].name == obj.name && cloud.servers[way.id].kind == obj.spec.kind
                && cloud.servers[way.id].pg == (if obj.spec.pg.Refers? then obj.spec.pg.id else 0)
                && obj.status == Created(obj.spec, way.id, old(obj.status), cloud.servers[way.id])
                && RecordsCreated(obj.spec, way.id, old(obj.status), cloud.servers[way.id], obj.status)
      ensures cloud.Spared({old(cloud.nextID)}) && old(cloud.nextID) !in old(cloud.servers)
      ensures old(cloud.nextID) in cloud.servers ==> cloud.servers[old(cloud.nextID)].name == obj.name
    {
      if obj.spec.pg.Broken? { return Stopped(Unresolved); }
      var pg := if obj.spec.pg.Refers? then obj.spec.pg.id else 0;
      var made := cloud.CreateServer(obj.name, obj.spec.kind, pg, l.slow, l.create);
      if made.Failed? { return Stopped(made.fault); }
      var s := cloud.servers[made.value];
      obj.status := Observe(obj.status, made.value, s);
      if s.pg != 0 { obj.status := obj.status.(appliedPG := s.pg); }
      if s.kind == obj.spec.kind && s.power.Running? { obj.status := obj.status.(appliedKind := obj.spec.kind); }
      obj.status := SetReady(obj.status, true, ServerCreated);
      way := Made(made.value, sc.writes);
    }

    /** By name, else create. */
    method AdoptOrProvision(obj: HCloudServer, l: Lookup, sc: Script) returns (way: Way)
      requires inner.cloud == cloud && cloud.Valid()
      modifies obj`status, cloud
      ensures cloud.Valid() && way != Stopped(AlreadyExists)
      ensures way.Found? ==>
                && way.end != Errored(AlreadyExists) && obj.status.serverID == way.id
                && way.id in old(cloud.servers) && old(cloud.servers)[way.id].name == obj.name
                && cloud.Spared({way.id}) && cloud.nextID == old(cloud.nextID)
                && (way.id in cloud.servers ==> cloud.servers[way.id].name == obj.name)
                && Outcome(cloud.HostOf(way.id), obj.status, way.end)
                   == ReconcileExisting(obj.spec, old(cloud.HostOf(way.id)), way.id,
                                        old(obj.status).(serverID := way.id), old(cloud.servers)[way.id], sc)
      ensures !way.Found? ==>
                && cloud.Spared({old(cloud.nextID)})
                && (old(cloud.nextID) in cloud.servers ==> cloud.servers[old(cloud.nextID)].name == obj.name)
      ensures way.Stopped? ==> obj.status == old(obj.status)
      ensures way.Made? ==> way.id == old(cloud.nextID) && obj.status.serverID == way.id && !old(cloud.Taken(obj.name))
    {
      var named := cloud.GetServerByName(obj.name, l.byName);
      if named.Failed? { return Stopped(named.fault); }
      if named.value.Some? {
        var id := named.value.value;
        obj.status := obj.status.(serverID := id);
        var end := ReconcileFound(obj, id, sc);
        return Found(id, end);
      }
      way := Provision(obj, l, sc);
    }

    /** By recorded ID: the end of the pass if the server is there. */
    method ReconcileRecorded(obj: HCloudServer, sc: Script) returns (r: Reply<Option<End>>)
      requires inner.cloud == cloud && cloud.Valid()
      modifies obj`status, cloud
      ensures cloud.Valid() && cloud.Spared({old(obj.status.serverID)}) && cloud.nextID == old(cloud.nextID)
      ensures var id := old(obj.status.serverID);
              id in cloud.servers ==> id in old(cloud.servers) && cloud.servers[id].name == old(cloud.servers)[id].name
      ensures obj.status.serverID == old(obj.status.serverID)
      ensures !(r.Got? && r.value.Some?) ==> obj.status == old(obj.status)
      ensures r.Got? && r.value.None? && old(obj.status.serverID) in old(cloud.servers) ==>
                sc.beat(AtFetch).drift.Gone? && old(obj.status.serverID) !in cloud.servers
      ensures r.Got? && r.value.None? ==> cloud.log == old(cloud.log) && cloud.networks == old(cloud.networks)
      ensures r.Got? && r.value.Some? ==>
                var id := old(obj.status.serverID);
                var h := HostGet(old(cloud.HostOf(obj.status.serverID)), sc.beat(AtFetch)).host;
                && r.value.value != Errored(AlreadyExists) && id in old(cloud.servers) && h.server.Some?
                && Outcome(cloud.HostOf(id), obj.status, r.value.value)
                   == ReconcileExisting(obj.spec, h, id, old(obj.status), h.server.value, sc)
      ensures r.Failed? ==> r.fault == Transport
    {
      var fetched := Fetch(obj, sc);
      if fetched.Failed? { return Failed(fetched.fault); }
      if fetched.value.None? { return Got(None); }
      var end := ReconcileFound(obj, obj.status.serverID, sc);
      r := Got(Some(end));
    }

    /** By recorded ID, else by name, else create.  A server that can be found is never created
        again, a recorded ID that is live always names the object's own server, and a pass over
        an existing server is the specified one. */
    method ReconcileHCloudServer(obj: HCloudServer, l: Lookup, sc: Script) returns (way: Way)
      requires inner.cloud == cloud && cloud.Valid()
      requires obj.status.serverID in cloud.servers ==> cloud.servers[obj.status.serverID].name == obj.name
      modifies obj`status, cloud
      ensures cloud.Valid() && way != Stopped(AlreadyExists) && (way.Found? ==> way.end != Errored(AlreadyExists))
      ensures obj.status.serverID in cloud.servers ==> cloud.servers[obj.status.serverID].name == obj.name
      ensures way.Found? ==> way.id in old(cloud.servers) && old(cloud.servers)[way.id].name == obj.name
                             && cloud.Spared({way.id, old(obj.status.serverID)})
      ensures way.Found? && way.id == old(obj.status.serverID) ==>
                var h := HostGet(old(cloud.HostOf(obj.status.serverID)), sc.beat(AtFetch)).host;
                && h.server.Some?
                && Outcome(cloud.HostOf(way.id), obj.status, way.end)
                   == ReconcileExisting(obj.spec, h, way.id, old(obj.status), h.server.value, sc)
      ensures way.Found? && way.id != old(obj.status.serverID) ==>
                Outcome(cloud.HostOf(way.id), obj.status, way.end)
                == ReconcileExisting(obj.spec, old(cloud.HostOf(way.id)), way.id,
                                     old(obj.status).(serverID := way.id), old(cloud.servers)[way.id], sc)
      ensures !way.Found? ==> forall j :: j in cloud.servers && j != old(cloud.nextID) ==> j in old(cloud.servers)
      ensures way.Made? ==> way.id == old(cloud.nextID) && obj.status.serverID == way.id
                            && (old(obj.status.serverID) in old(cloud.servers) ==> sc.beat(AtFetch).drift.Gone?)
                            && forall j :: j in old(cloud.servers) && old(cloud.servers)[j].name == obj.name
                                           ==> j == old(obj.status.serverID)
    {
      if obj.status.serverID != 0 {
        var r := ReconcileRecorded(obj, sc);
        if r.Failed? { return Stopped(r.fault); }
        if r.value.Some? { return Found(obj.status.serverID, r.value.value); }
      }
      way := AdoptOrProvision(obj, l, sc);
    }
  }
}
