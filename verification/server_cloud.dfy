/** The server side of the in-memory cloud (internal/hcloud/fake_client.go), extended with
    what the real cloud adds: power changes that take time, servers that drift from a
    transitional state to a stable one, and calls that fail.

    The operations are functions on a `Host`, one server's slice of the cloud; the class
    `FakeServers` performs them in place on the map of all servers. */
module ServerCloud {
  import opened Prelude

  datatype Power =
    | Initializing
    | Running
    | Stopping
    | Off
    | Starting
    | Migrating
    | Rebuilding
    | Deleting
    | Unknown

  /** The states the cloud leaves by itself, and where it goes. */
  predicate Moves(from: Power, to: Power) {
    match from
    case Initializing => to == Running
    case Stopping => to == Off
    case Starting => to == Running
    case Migrating => to == Running || to == Off
    case Rebuilding => to == Running || to == Off
    case _ => false
  }

  predicate Transitional(p: Power) {
    p.Initializing? || p.Stopping? || p.Starting? || p.Migrating? || p.Rebuilding?
  }

  datatype Server = Server(name: string, kind: string, power: Power, nets: seq<nat>, pg: nat)

  /** Mutating calls that reached the cloud. */
  datatype Call =
    | PowerOff
    | PowerOn
    | ChangeType(kind: string, upgradeDisk: bool)
    | Attach(net: nat)
    | Detach(net: nat)

  datatype Host = Host(server: Option<Server>, networks: set<nat>, log: seq<Call>)

  /** What the world does around one call: first the server may drift to another state or be
      deleted by someone else, then the call meets its fate; `slow` makes a power call leave
      the server in the transitional state. */
  datatype Drift = Still | To(power: Power) | Gone
  datatype Beat = Beat(drift: Drift, fate: Fate, slow: bool)

  datatype Did<+T> = Did(host: Host, reply: Reply<T>)

  function Drifted(h: Host, d: Drift): Host {
    match d
    case Still => h
    case To(p) =>
      if h.server.Some? && Moves(h.server.value.power, p)
      then h.(server := Some(h.server.value.(power := p))) else h
    case Gone => h.(server := None)
  }

  /** A call that changes the server to `s` once the world has moved. */
  function Effect(h: Host, b: Beat, call: Call, s: Server): Did<()> {
    Did(h.(server := Some(s), log := h.log + [call]), Answer(b.fate, ()))
  }

  function HostGet(h0: Host, b: Beat): Did<Option<Server>> {
    var h := Drifted(h0, b.drift);
    Did(h, Answer(b.fate, h.server))
  }

  function Reach(h: Host, b: Beat): Reply<Server> {
    if b.fate.Refused? then Failed(Transport)
    else if h.server.None? then Failed(NotFound)
    else Got(h.server.value)
  }

  function HostPowerOff(h0: Host, b: Beat): Did<()> {
    var h := Drifted(h0, b.drift);
    match Reach(h, b)
    case Failed(f) => Did(h, Failed(f))
    case Got(s) =>
      Effect(h, b, PowerOff,
             if s.power.Off? || s.power.Stopping? then s
             else s.(power := if b.slow then Stopping else Off))
  }

  function HostPowerOn(h0: Host, b: Beat): Did<()> {
    var h := Drifted(h0, b.drift);
    match Reach(h, b)
    case Failed(f) => Did(h, Failed(f))
    case Got(s) =>
      Effect(h, b, PowerOn,
             if s.power.Running? || s.power.Starting? then s
             else s.(power := if b.slow then Starting else Running))
  }

  function HostChangeType(h0: Host, kind: string, upgradeDisk: bool, b: Beat): Did<()> {
    var h := Drifted(h0, b.drift);
    match Reach(h, b)
    case Failed(f) => Did(h, Failed(f))
    case Got(s) =>
      if s.kind != kind && !s.power.Off? then Did(h, Failed(MustBeOff))
      else Effect(h, b, ChangeType(kind, upgradeDisk), s.(kind := kind))
  }

  function HostAttach(h0: Host, net: nat, b: Beat): Did<()> {
    var h := Drifted(h0, b.drift);
    match Reach(h, b)
    case Failed(f) => Did(h, Failed(f))
    case Got(s) =>
      if net !in h.networks then Did(h, Failed(NotFound))
      else Effect(h, b, Attach(net),
                  if net in s.nets then s else s.(nets := SortBy(LeNat, s.nets + [net])))
  }

  function HostDetach(h0: Host, net: nat, b: Beat): Did<()> {
    var h := Drifted(h0, b.drift);
    match Reach(h, b)
    case Failed(f) => Did(h, Failed(f))
    case Got(s) => Effect(h, b, Detach(net), s.(nets := Without(s.nets, net)))
  }

  /** The type of a server changes only while it is off; a change to the type it has is always
      granted.  A network must exist to be attached. */
  lemma CloudRefusesIff(h: Host, kind: string, upgradeDisk: bool, net: nat, b: Beat)
    requires h.server.Some? && b.drift.Still? && b.fate.Works?
    ensures var s, c := h.server.value, HostChangeType(h, kind, upgradeDisk, b);
            if s.kind != kind && s.power != Off then c == Did(h, Failed(MustBeOff))
            else c == Did(h.(server := Some(s.(kind := kind)), log := h.log + [ChangeType(kind, upgradeDisk)]), Got(()))
    ensures HostAttach(h, net, b).reply == Got(()) <==> net in h.networks
    ensures HostAttach(h, net, b).reply.Failed? ==> HostAttach(h, net, b) == Did(h, Failed(NotFound))
  {
  }

  /** A server that others delete before a call is not found by it, and stays deleted. */
  lemma GoneIsNotFound(h: Host, kind: string, upgradeDisk: bool, net: nat, b: Beat)
    requires b.drift.Gone? && b.fate.Works?
    ensures HostGet(h, b) == Did(h.(server := None), Got(None))
    ensures HostPowerOff(h, b) == HostPowerOn(h, b) == Did(h.(server := None), Failed(NotFound))
    ensures HostChangeType(h, kind, upgradeDisk, b) == Did(h.(server := None), Failed(NotFound))
    ensures HostAttach(h, net, b) == HostDetach(h, net, b) == Did(h.(server := None), Failed(NotFound))
  {
  }

  /** Attaching and detaching keep a server's networks sorted and without repeats. */
  lemma NetworksStaySorted(h: Host, net: nat, b: Beat)
    requires h.server.Some? && Ordered(LeNat, h.server.value.nets) && Distinct(h.server.value.nets)
    ensures var a := HostAttach(h, net, b).host.server;
            a.Some? ==> Ordered(LeNat, a.value.nets) && Distinct(a.value.nets)
    ensures var d := HostDetach(h, net, b).host.server;
            d.Some? ==> Ordered(LeNat, d.value.nets) && Distinct(d.value.nets)
  {
    var nets := h.server.value.nets;
    SortOrders(LeNat, nets + [net]);
    if net !in nets { SortKeepsDistinct(LeNat, nets + [net]); }
    WithoutKeepsDistinct(nets, net);
    WithoutStaysOrdered(LeNat, nets, net);
  }

  /** A slow power call leaves the server on its way to where the quick one puts it; one that is
      there or on its way is left alone. */
  lemma SlowCallsTransit(h: Host, b: Beat)
    requires !b.fate.Refused? && b.drift.Still? && h.server.Some?
    ensures var off, on := HostPowerOff(h, b).host.server.value.power, HostPowerOn(h, b).host.server.value.power;
            && (h.server.value.power.Running? ==> off == if b.slow then Stopping else Off)
            && (h.server.value.power.Off? ==> on == if b.slow then Starting else Running)
            && (h.server.value.power.Off? || h.server.value.power.Stopping? ==> off == h.server.value.power)
            && (h.server.value.power.Running? || h.server.value.power.Starting? ==> on == h.server.value.power)
            && (b.slow && h.server.value.power.Running? ==> forall q :: Moves(off, q) <==> q == Off)
            && (b.slow && h.server.value.power.Off? ==> forall q :: Moves(on, q) <==> q == Running)
  {
  }

  // ---------- the same cloud, in place ----------

  class FakeServers {
    var servers: map<nat, Server>
    var networks: set<nat>
    var nextID: nat
    var log: seq<Call>

    constructor ()
      ensures servers == map[] && networks == {} && nextID == 1 && log == []
    {
      servers, networks, nextID, log := map[], {}, 1, [];
    }

    function HostOf(id: nat): Host
      reads this
    {
      Host(if id in servers then Some(servers[id]) else None, networks, log)
    }

    /** Everything but server `id` and the call log is as before. */
    twostate predicate OnlyTouched(id: nat)
      reads this
    {
      servers - {id} == old(servers) - {id} && networks == old(networks) && nextID == old(nextID)
    }

    /** Every server outside `ids` is as it was. */
    twostate predicate Spared(ids: set<nat>)
      reads this
    {
      forall j :: j !in ids ==>
        (j in servers <==> j in old(servers)) && (j in servers ==> servers[j] == old(servers)[j])
    }

    method Move(id: nat, d: Drift)
      modifies this
      ensures HostOf(id) == Drifted(old(HostOf(id)), d) && OnlyTouched(id)
    {
      match d {
        case Still =>
        case To(p) =>
          if id in servers && Moves(servers[id].power, p) {
            servers := servers[id := servers[id].(power := p)];
          }
        case Gone => servers := servers - {id};
      }
    }

    method GetServer(id: nat, b: Beat) returns (r: Reply<Option<Server>>)
      modifies this
      ensures Did(HostOf(id), r) == HostGet(old(HostOf(id)), b) && OnlyTouched(id)
    {
      Move(id, b.drift);
      r := Answer(b.fate, if id in servers then Some(servers[id]) else None);
    }

    method PowerOffServer(id: nat, b: Beat) returns (r: Reply<()>)
      modifies this
      ensures Did(HostOf(id), r) == HostPowerOff(old(HostOf(id)), b) && OnlyTouched(id)
    {
      Move(id, b.drift);
      if b.fate.Refused? { return Failed(Transport); }
      if id !in servers { return Failed(NotFound); }
      var s := servers[id];
      if !(s.power.Off? || s.power.Stopping?) {
        servers := servers[id := s.(power := if b.slow then Stopping else Off)];
      }
      log := log + [PowerOff];
      r := Answer(b.fate, ());
    }

    method PowerOnServer(id: nat, b: Beat) returns (r: Reply<()>)
      modifies this
      ensures Did(HostOf(id), r) == HostPowerOn(old(HostOf(id)), b) && OnlyTouched(id)
    {
      Move(id, b.drift);
      if b.fate.Refused? { return Failed(Transport); }
      if id !in servers { return Failed(NotFound); }
      var s := servers[id];
      if !(s.power.Running? || s.power.Starting?) {
        servers := servers[id := s.(power := if b.slow then Starting else Running)];
      }
      log := log + [PowerOn];
      r := Answer(b.fate, ());
    }

    method ChangeServerType(id: nat, kind: string, upgradeDisk: bool, b: Beat) returns (r: Reply<()>)
      modifies this
      ensures Did(HostOf(id), r) == HostChangeType(old(HostOf(id)), kind, upgradeDisk, b)
      ensures OnlyTouched(id)
    {
      Move(id, b.drift);
      if b.fate.Refused? { return Failed(Transport); }
      if id !in servers { return Failed(NotFound); }
      var s := servers[id];
      if s.kind != kind {
        if !s.power.Off? { return Failed(MustBeOff); }
        servers := servers[id := s.(kind := kind)];
      }
      log := log + [ChangeType(kind, upgradeDisk)];
      r := Answer(b.fate, ());
    }

    method AttachServerToNetwork(id: nat, net: nat, b: Beat) returns (r: Reply<()>)
      modifies this
      ensures Did(HostOf(id), r) == HostAttach(old(HostOf(id)), net, b) && OnlyTouched(id)
    {
      Move(id, b.drift);
      if b.fate.Refused? { return Failed(Transport); }
      if id !in servers { return Failed(NotFound); }
      if net !in networks { return Failed(NotFound); }
      var s := servers[id];
      var present := false;
      for i := 0 to |s.nets|
        invariant present <==> net in s.nets[..i]
      {
        if s.nets[i] == net { present := true; }
      }
      assert s.nets[..|s.nets|] == s.nets;
      if !present {
        servers := servers[id := s.(nets := SortBy(LeNat, s.nets + [net]))];
      }
      log := log + [Attach(net)];
      r := Answer(b.fate, ());
    }

    method DetachServerFromNetwork(id: nat, net: nat, b: Beat) returns (r: Reply<()>)
      modifies this
      ensures Did(HostOf(id), r) == HostDetach(old(HostOf(id)), net, b) && OnlyTouched(id)
    {
      Move(id, b.drift);
      if b.fate.Refused? { return Failed(Transport); }
      if id !in servers { return Failed(NotFound); }
      var s := servers[id];
      var filtered := [];
      for i := 0 to |s.nets|
        invariant filtered == Without(s.nets[..i], net)
      {
        assert s.nets[..i + 1][..i] == s.nets[..i];
        if s.nets[i] != net { filtered := filtered + [s.nets[i]]; }
      }
      assert s.nets[..|s.nets|] == s.nets;
      servers := servers[id := s.(nets := filtered)];
      log := log + [Detach(net)];
      r := Answer(b.fate, ());
    }

    /** IDs are below the next one and names are unique. */
    ghost predicate Valid()
      reads this
    {
      && nextID > 0 && (forall i :: i in servers ==> 0 < i < nextID)
      && forall i, j :: i in servers && j in servers && servers[i].name == servers[j].name ==> i == j
    }

    predicate Taken(name: string)
      reads this
    {
      exists i :: i in servers && servers[i].name == name
    }

    /** The map is searched in any order; names are unique, so it does not matter. */
    method GetServerByName(name: string, fate: Fate) returns (r: Reply<Option<nat>>)
      ensures r.Failed? <==> !fate.Works?
      ensures r.Failed? ==> r.fault == Transport
      ensures r.Got? && r.value.Some? ==> r.value.value in servers && servers[r.value.value].name == name
      ensures r.Got? && r.value.None? ==> !Taken(name)
    {
      if !fate.Works? { return Failed(Transport); }
      var left := servers.Keys;
      while left != {}
        invariant left <= servers.Keys && forall i :: i in servers && i !in left ==> servers[i].name != name
        decreases |left|
      {
        var i :| i in left;
        if servers[i].name == name { return Got(Some(i)); }
        left := left - {i};
      }
      r := Got(None);
    }

    /** `slow`: the new server is still initializing when the call returns. */
    method CreateServer(name: string, kind: string, pg: nat, slow: bool, fate: Fate) returns (r: Reply<nat>)
      requires Valid()
      modifies this
      ensures Valid() && networks == old(networks) && log == old(log)
      ensures var newborn, made := Server(name, kind, if slow then Initializing else Running, [], pg),
                                  !fate.Refused? && !old(Taken(name));
              && servers == (if made then old(servers)[old(nextID) := newborn] else old(servers))
              && old(nextID) !in old(servers)
              && (made ==> r == Answer(fate, old(nextID)))
              && (!made ==> r == Failed(if fate.Refused? then Transport else AlreadyExists))
    {
      if fate.Refused? { return Failed(Transport); }
      if Taken(name) { return Failed(AlreadyExists); }
      var id := nextID;
      servers := servers[id := Server(name, kind, if slow then Initializing else Running, [], pg)];
      nextID := nextID + 1;
      r := Answer(fate, id);
    }
  }
}
