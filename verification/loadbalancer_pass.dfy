/** The load-balancer pass in place: lookup, target loops over sets in any order, services
    (internal/controller/hcloudloadbalancer_controller.go:126-323), against the in-memory cloud
    (internal/hcloud/fake_client.go:391-500, 773-783). */
module LoadBalancerPass {
  import opened Prelude
  import opened LoadBalancers
  import Services

  /** Attaching a server twice changes nothing. */
  function Plugged(targets: seq<nat>, server: nat): seq<nat> {
    if server in targets then targets else targets + [server]
  }

  lemma NextPlug(current: set<nat>, selected: set<nat>, calls: seq<Call>, s: nat)
    requires MakeBeforeBreak(current, selected, calls) && s in selected - current && Plug(s) !in calls
    ensures MakeBeforeBreak(current, selected, calls + [Plug(s)])
    ensures Targets(current, calls + [Plug(s)]) == Targets(current, calls) + {s}
  {
    Extend(current, selected, calls, Plug(s));
  }

  lemma NextUnplug(current: set<nat>, selected: set<nat>, calls: seq<Call>, s: nat)
    requires MakeBeforeBreak(current, selected, calls) && s in current - selected && Unplug(s) !in calls
    requires AllPlugged(selected - current, calls)
    ensures MakeBeforeBreak(current, selected, calls + [Unplug(s)])
    ensures Targets(current, calls + [Unplug(s)]) == Targets(current, calls) - {s}
  {
    Extend(current, selected, calls, Unplug(s));
  }

  lemma Extend(current: set<nat>, selected: set<nat>, calls: seq<Call>, c: Call)
    requires MakeBeforeBreak(current, selected, calls) && c !in calls
    requires (c.Plug? && c.server in selected - current)
             || (c.Unplug? && c.server in current - selected && AllPlugged(selected - current, calls))
    ensures MakeBeforeBreak(current, selected, calls + [c]) && (calls + [c])[..|calls|] == calls
  {
    var longer := calls + [c];
    assert longer[..|calls|] == calls;
    forall i | 0 <= i < |calls| ensures longer[i] == calls[i] && longer[..i] == calls[..i] {}
  }

  // ---------- the cloud ----------

  datatype LB = LB(name: string, targets: seq<nat>, services: seq<Services.Service>)

  type LBs = map<nat, LB>

  ghost predicate Valid(lbs: LBs, nextID: nat) {
    && nextID > 0
    && (forall id :: id in lbs ==> 0 < id < nextID && Distinct(lbs[id].targets))
    && (forall i, j :: i in lbs && j in lbs && lbs[i].name == lbs[j].name ==> i == j)
  }

  predicate Taken(lbs: LBs, name: string) { exists id :: id in lbs && lbs[id].name == name }

  /** Of the load balancer `id`, only the targets may have changed. */
  predicate TargetsOnly(was: LBs, now: LBs, id: nat) {
    Others(was, now, id) && (id in now ==> id in was && now[id] == was[id].(targets := now[id].targets))
  }

  function Attached(lbs: LBs, id: nat, server: nat): LBs
    requires id in lbs
  {
    lbs[id := lbs[id].(targets := Plugged(lbs[id].targets, server))]
  }

  function Detached(lbs: LBs, id: nat, server: nat): LBs
    requires id in lbs
  {
    lbs[id := lbs[id].(targets := Without(lbs[id].targets, server))]
  }

  class FakeLoadBalancers {
    var lbs: LBs
    var nextID: nat
    var log: seq<Call>
    var clock: nat
    const servers: set<nat>
    const moments: nat -> Moment

    constructor (servers: set<nat>, moments: nat -> Moment)
      ensures Valid(lbs, nextID) && lbs == map[] && log == [] && this.servers == servers && this.moments == moments
    {
      lbs, nextID, log, clock := map[], 1, [], 0;
      this.servers, this.moments := servers, moments;
    }

    /** From now on every call is answered and nobody interferes. */
    ghost predicate Calm()
      reads this`clock
    {
      CalmFrom(moments, clock)
    }

    method Tick() returns (fate: Fate)
      requires Valid(lbs, nextID)
      modifies this`clock, this`lbs
      ensures Valid(lbs, nextID) && clock == old(clock) + 1
      ensures lbs == old(lbs) - moments(old(clock)).gone && fate == moments(old(clock)).fate
    {
      fate := moments(clock).fate;
      lbs := lbs - moments(clock).gone;
      clock := clock + 1;
    }

    method GetByID(id: nat) returns (r: Reply<Option<LB>>)
      requires Valid(lbs, nextID)
      modifies this`clock, this`lbs
      ensures Valid(lbs, nextID) && clock == old(clock) + 1 && lbs == old(lbs) - moments(old(clock)).gone
      ensures r == Answer(moments(old(clock)).fate, if id in lbs then Some(lbs[id]) else None)
    {
      var fate := Tick();
      r := Answer(fate, if id in lbs then Some(lbs[id]) else None);
    }

    /** The map is searched in any order; names are unique, so it does not matter. */
    method GetByName(name: string) returns (r: Reply<Option<nat>>)
      requires Valid(lbs, nextID)
      modifies this`clock, this`lbs
      ensures Valid(lbs, nextID) && clock == old(clock) + 1 && lbs == old(lbs) - moments(old(clock)).gone
      ensures (r.Got? <==> moments(old(clock)).fate.Works?) && (r.Failed? ==> r.fault == Transport)
      ensures r.Got? && r.value.Some? ==> r.value.value in lbs && lbs[r.value.value].name == name
      ensures r.Got? && r.value.None? ==> forall id :: id in lbs ==> lbs[id].name != name
    {
      var fate := Tick();
      if !fate.Works? { return Failed(Transport); }
      var left := lbs.Keys;
      while left != {}
        invariant left <= lbs.Keys && forall id :: id in lbs && id !in left ==> lbs[id].name != name
        decreases |left|
      {
        var id :| id in left;
        if lbs[id].name == name { return Got(Some(id)); }
        left := left - {id};
      }
      r := Got(None);
    }

    method Create(name: string) returns (r: Reply<nat>)
      requires Valid(lbs, nextID)
      modifies this
      ensures Valid(lbs, nextID) && clock == old(clock) + 1
      ensures var there, m := old(lbs) - moments(old(clock)).gone, moments(old(clock));
              var made := !m.fate.Refused? && !Taken(there, name);
              && lbs == (if made then there[old(nextID) := LB(name, [], [])] else there)
              && log == old(log) + (if made then [CreateLB] else [])
              && (made ==> r == Answer(m.fate, old(nextID)) && old(nextID) !in old(lbs))
              && (!made ==> r == Failed(if m.fate.Refused? then Transport else AlreadyExists))
    {
      var fate := Tick();
      if fate.Refused? { return Failed(Transport); }
      if Taken(lbs, name) { return Failed(AlreadyExists); }
      var id := nextID;
      lbs, nextID, log := lbs[id := LB(name, [], [])], nextID + 1, log + [CreateLB];
      r := Answer(fate, id);
    }

    method Attach(id: nat, server: nat) returns (r: Reply<()>)
      requires Valid(lbs, nextID)
      modifies this`lbs, this`log, this`clock
      ensures Valid(lbs, nextID) && clock == old(clock) + 1
      ensures var there := old(lbs) - moments(old(clock)).gone;
              var reached := !moments(old(clock)).fate.Refused? && id in there && server in servers;
              && lbs == (if reached then Attached(there, id, server) else there)
              && log == old(log) + (if reached then [Plug(server)] else [])
              && (r.Got? <==> reached && moments(old(clock)).fate.Works?)
    {
      var fate := Tick();
      if fate.Refused? { return Failed(Transport); }
      if id !in lbs || server !in servers { return Failed(NotFound); }
      if server !in lbs[id].targets {
        lbs := lbs[id := lbs[id].(targets := lbs[id].targets + [server])];
      }
      log := log + [Plug(server)];
      r := Answer(fate, ());
    }

    method Detach(id: nat, server: nat) returns (r: Reply<()>)
      requires Valid(lbs, nextID)
      modifies this`lbs, this`log, this`clock
      ensures Valid(lbs, nextID) && clock == old(clock) + 1
      ensures var there := old(lbs) - moments(old(clock)).gone;
              var reached := !moments(old(clock)).fate.Refused? && id in there;
              && lbs == (if reached then Detached(there, id, server) else there)
              && log == old(log) + (if reached then [Unplug(server)] else [])
              && (r.Got? <==> reached && moments(old(clock)).fate.Works?)
    {
      var fate := Tick();
      if fate.Refused? { return Failed(Transport); }
      if id !in lbs { return Failed(NotFound); }
      var targets, filtered := lbs[id].targets, [];
      for i := 0 to |targets|
        invariant filtered == Without(targets[..i], server)
      {
        assert targets[..i + 1][..i] == targets[..i];
        if targets[i] != server { filtered := filtered + [targets[i]]; }
      }
      assert targets[..|targets|] == targets;
      WithoutKeepsDistinct(targets, server);
      lbs := lbs[id := lbs[id].(targets := filtered)];
      log := log + [Unplug(server)];
      r := Answer(fate, ());
    }

    method Sync(id: nat, desired: seq<Services.Service>) returns (r: Reply<()>)
      requires Valid(lbs, nextID)
      modifies this`lbs, this`log, this`clock
      ensures Valid(lbs, nextID) && clock == old(clock) + 1
      ensures var there := old(lbs) - moments(old(clock)).gone;
              var reached := !moments(old(clock)).fate.Refused? && id in there;
              && lbs == (if reached then there[id := there[id].(services := desired)] else there)
              && log == old(log) + (if reached then [PushServices(desired)] else [])
              && (r.Got? <==> reached && moments(old(clock)).fate.Works?)
    {
      var fate := Tick();
      if fate.Refused? { return Failed(Transport); }
      if id !in lbs { return Failed(NotFound); }
      lbs := lbs[id := lbs[id].(services := desired)];
      log := log + [PushServices(desired)];
      r := Answer(fate, ());
    }
  }

  // ---------- the reconciler ----------

  datatype Status = Status(id: nat, attached: seq<nat>)

  datatype End = Pending | Finished | Errored(fault: Fault)

  class HCloudLoadBalancer {
    const name: string
    const services: seq<ServiceSpec>
    var status: Status

    constructor (name: string, services: seq<ServiceSpec>, status: Status)
      ensures this.name == name && this.services == services && this.status == status
    {
      this.name, this.services, this.status := name, services, status;
    }
  }

  method ResolveCertificateIDs(env: Certificates, refs: seq<string>) returns (r: Reply<Resolved>)
    ensures r == Resolve(env, refs)
  {
    var ids, pending := [], false;
    for i := 0 to |refs|
      invariant Resolve(env, refs[..i]) == Got(Resolved(ids, pending))
    {
      assert refs[..i + 1][..i] == refs[..i];
      var ref := refs[i];
      if ref != "" {
        if ref in env.unreadable {
          Poisoned(env, refs, i + 1);
          return Failed(Unresolved);
        }
        if ref !in env.objects || env.objects[ref] == 0 {
          pending := true;
        } else if env.objects[ref] !in env.ready || !env.ready[env.objects[ref]] {
          pending := true;
        } else {
          ids := ids + [env.objects[ref]];
        }
      }
    }
    assert refs[..|refs|] == refs;
    r := Got(Resolved(ids, pending));
  }

  lemma {:induction false} Poisoned(env: Certificates, refs: seq<string>, k: nat)
    requires k <= |refs| && Resolve(env, refs[..k]).Failed?
    ensures Resolve(env, refs) == Failed(Unresolved)
    decreases |refs|
  {
    if k == |refs| {
      assert refs[..k] == refs;
      OneFault(env, refs);
    } else {
      var front := refs[..|refs| - 1];
      assert front[..k] == refs[..k];
      Poisoned(env, front, k);
    }
  }

  lemma {:induction false} OneFault(env: Certificates, refs: seq<string>)
    ensures Resolve(env, refs).Failed? ==> Resolve(env, refs) == Failed(Unresolved)
    decreases |refs|
  {
    if |refs| > 0 { OneFault(env, refs[..|refs| - 1]); }
  }

  method ServicesFromSpec(env: Certificates, specs: seq<ServiceSpec>) returns (r: Reply<Desired>)
    ensures r == FromSpecs(env, specs)
    ensures r.Got? ==> |r.value.services| == |specs|
                       && forall k :: 0 <= k < |specs| ==> Says(r.value.services[k], specs[k])
  {
    var out, pending := [], false;
    for i := 0 to |specs|
      invariant FromSpecs(env, specs[..i]) == Got(Desired(out, pending))
    {
      assert specs[..i + 1][..i] == specs[..i];
      var ids := [];
      if |specs[i].certificateRefs| > 0 {
        var resolved := ResolveCertificateIDs(env, specs[i].certificateRefs);
        if resolved.Failed? {
          OneFault(env, specs[i].certificateRefs);
          PoisonedSpecs(env, specs, i + 1);
          return Failed(Unresolved);
        }
        ids := resolved.value.ids;
        pending := pending || resolved.value.pending;
      }
      out := out + [ServiceFromSpec(specs[i], ids)];
    }
    assert specs[..|specs|] == specs;
    r := Got(Desired(out, pending));
    ListenersComplete(env, specs);
  }

  lemma {:induction false} PoisonedSpecs(env: Certificates, specs: seq<ServiceSpec>, k: nat)
    requires k <= |specs| && FromSpecs(env, specs[..k]) == Failed(Unresolved)
    ensures FromSpecs(env, specs) == Failed(Unresolved)
    decreases |specs|
  {
    if k == |specs| {
      assert specs[..k] == specs;
    } else {
      var front := specs[..|specs| - 1];
      assert front[..k] == specs[..k];
      PoisonedSpecs(env, front, k);
    }
  }

  // ---------- what a pass does ----------

  function Current(lbs: LBs, id: nat): set<nat> { if id in lbs then Elements(lbs[id].targets) else {} }

  ghost predicate Complete(env: Certificates, specs: seq<ServiceSpec>, services: seq<Services.Service>) {
    |services| == |specs| && forall k :: 0 <= k < |specs| ==> FullyConfigured(env, specs[k], services[k])
  }

  /** The list is sorted, without repeats, and has exactly these elements. */
  ghost predicate InOrder(xs: seq<nat>, elements: set<nat>) {
    Elements(xs) == elements && forall i, j :: 0 <= i < j < |xs| ==> xs[i] < xs[j]
  }

  lemma SortedTargets(targets: seq<nat>)
    requires Distinct(targets)
    ensures InOrder(SortBy(LeNat, targets), Elements(targets))
  {
    SortMembers(LeNat, targets);
    SortOrders(LeNat, targets);
    SortKeepsDistinct(LeNat, targets);
  }

  /** At most one create, then moves that make before they break, then one push, and the push
      only once the moves are complete. */
  ghost predicate Calls(was: LBs, id: nat, selected: set<nat>, desired: seq<Services.Service>,
                        made: seq<Call>, moves: seq<Call>, pushed: seq<Call>) {
    var current := if made == [] then Current(was, id) else {};
    && (made == [] || made == [CreateLB])
    && MakeBeforeBreak(current, selected, moves)
    && (pushed == [] || (pushed == [PushServices(desired)] && Targets(current, moves) == selected))
    && (moves + pushed != [] ==> (made == [] <==> id in was))
  }

  /** The recorded load balancer has exactly the selected servers, which the status lists in
      order, and exactly the desired services. */
  ghost predicate InSync(name: string, recorded: nat, status: Status, lbs: LBs,
                         selected: set<nat>, desired: seq<Services.Service>) {
    && status.id in lbs && (status.id == recorded || lbs[status.id].name == name)
    && (recorded != 0 && recorded in lbs ==> status.id == recorded)
    && Elements(lbs[status.id].targets) == selected && InOrder(status.attached, selected)
    && lbs[status.id].services == desired
  }

  // ---------- the two loops ----------

  /** The load balancer's targets are what the calls made of them, if it is still there. */
  ghost predicate Moving(lbs: LBs, id: nat, current: set<nat>, selected: set<nat>, moves: seq<Call>) {
    && MakeBeforeBreak(current, selected, moves)
    && (id in lbs ==> Elements(lbs[id].targets) == Targets(current, moves))
  }

  lemma Unmoved(lbs: LBs, id: nat, current: set<nat>, selected: set<nat>)
    requires id in lbs && Elements(lbs[id].targets) == current
    ensures Moving(lbs, id, current, selected, [])
  {
  }

  lemma PlugMoves(lbs: LBs, id: nat, current: set<nat>, selected: set<nat>, moves: seq<Call>, s: nat)
    requires id in lbs && Moving(lbs, id, current, selected, moves)
    requires s in selected - current && Plug(s) !in moves
    ensures Moving(Attached(lbs, id, s), id, current, selected, moves + [Plug(s)])
  {
    NextPlug(current, selected, moves, s);
    assert Elements(Plugged(lbs[id].targets, s)) == Elements(lbs[id].targets) + {s};
  }

  lemma UnplugMoves(lbs: LBs, id: nat, current: set<nat>, selected: set<nat>, moves: seq<Call>, s: nat)
    requires id in lbs && Moving(lbs, id, current, selected, moves)
    requires s in current - selected && Unplug(s) !in moves && AllPlugged(selected - current, moves)
    ensures Moving(Detached(lbs, id, s), id, current, selected, moves + [Unplug(s)])
  {
    NextUnplug(current, selected, moves, s);
    assert Elements(Without(lbs[id].targets, s)) == Elements(lbs[id].targets) - {s};
  }

  lemma AllMoved(current: set<nat>, selected: set<nat>, moves: seq<Call>)
    requires MakeBeforeBreak(current, selected, moves) && AllPlugged(selected - current, moves)
    requires forall s :: s in current - selected ==> Unplug(s) in moves
    ensures Targets(current, moves) == selected
  {
    TargetsAre(current, selected, moves);
  }

  class LoadBalancerReconciler {
    const cloud: FakeLoadBalancers

    constructor (cloud: FakeLoadBalancers)
      ensures this.cloud == cloud
    {
      this.cloud := cloud;
    }

    method AttachOne(id: nat, s: nat, ghost current: set<nat>, ghost selected: set<nat>, ghost before: seq<Call>)
      returns (ok: bool, ghost moves: seq<Call>)
      requires Valid(cloud.lbs, cloud.nextID) && Moving(cloud.lbs, id, current, selected, before)
      requires s in selected - current && Plug(s) !in before
      modifies cloud`lbs, cloud`log, cloud`clock
      ensures Valid(cloud.lbs, cloud.nextID) && TargetsOnly(old(cloud.lbs), cloud.lbs, id)
      ensures Moving(cloud.lbs, id, current, selected, before + moves) && cloud.log == old(cloud.log) + moves
      ensures moves == [Plug(s)] || (moves == [] && !ok)
      ensures old(cloud.Calm()) && id in old(cloud.lbs) && s in cloud.servers ==> ok && cloud.Calm() && id in cloud.lbs
    {
      ghost var log, there := cloud.log, cloud.lbs - cloud.moments(cloud.clock).gone;
      var r := cloud.Attach(id, s);
      ok := r.Got?;
      moves := if cloud.log == log then [] else [Plug(s)];
      assert before + [] == before;
      if moves != [] { PlugMoves(there, id, current, selected, before, s); }
    }

    method AttachMissing(id: nat, current: set<nat>, selected: set<nat>) returns (ok: bool, ghost moves: seq<Call>)
      requires Valid(cloud.lbs, cloud.nextID) && Moving(cloud.lbs, id, current, selected, [])
      modifies cloud`lbs, cloud`log, cloud`clock
      ensures Valid(cloud.lbs, cloud.nextID) && TargetsOnly(old(cloud.lbs), cloud.lbs, id)
      ensures Moving(cloud.lbs, id, current, selected, moves) && cloud.log == old(cloud.log) + moves
      ensures forall c :: c in moves ==> c.Plug?
      ensures ok ==> AllPlugged(selected - current, moves)
      ensures old(cloud.Calm()) && id in old(cloud.lbs) && selected <= cloud.servers ==>
                ok && cloud.Calm() && id in cloud.lbs
    {
      var left := selected;
      ok, moves := true, [];
      while left != {} && ok
        invariant left <= selected && Valid(cloud.lbs, cloud.nextID) && TargetsOnly(old(cloud.lbs), cloud.lbs, id)
        invariant Moving(cloud.lbs, id, current, selected, moves) && cloud.log == old(cloud.log) + moves
        invariant forall c :: c in moves ==> c.Plug? && c.server !in left
        invariant ok ==> forall s :: s in selected - current && s !in left ==> Plug(s) in moves
        invariant old(cloud.Calm()) && id in old(cloud.lbs) && selected <= cloud.servers ==>
                    ok && cloud.Calm() && id in cloud.lbs
        decreases |left|
      {
        var s :| s in left;
        left := left - {s};
        if s !in current {
          ghost var one;
          ok, one := AttachOne(id, s, current, selected, moves);
          moves := moves + one;
        }
      }
    }

    method DetachOne(id: nat, s: nat, ghost current: set<nat>, ghost selected: set<nat>, ghost before: seq<Call>)
      returns (ok: bool, ghost moves: seq<Call>)
      requires Valid(cloud.lbs, cloud.nextID) && Moving(cloud.lbs, id, current, selected, before)
      requires s in current - selected && Unplug(s) !in before && AllPlugged(selected - current, before)
      modifies cloud`lbs, cloud`log, cloud`clock
      ensures Valid(cloud.lbs, cloud.nextID) && TargetsOnly(old(cloud.lbs), cloud.lbs, id)
      ensures Moving(cloud.lbs, id, current, selected, before + moves) && cloud.log == old(cloud.log) + moves
      ensures moves == [Unplug(s)] || (moves == [] && !ok)
      ensures old(cloud.Calm()) && id in old(cloud.lbs) ==> ok && cloud.Calm() && id in cloud.lbs
    {
      ghost var log, there := cloud.log, cloud.lbs - cloud.moments(cloud.clock).gone;
      var r := cloud.Detach(id, s);
      ok := r.Got?;
      moves := if cloud.log == log then [] else [Unplug(s)];
      assert before + [] == before;
      if moves != [] { UnplugMoves(there, id, current, selected, before, s); }
    }

    method DetachSurplus(id: nat, current: set<nat>, selected: set<nat>, ghost plugs: seq<Call>)
      returns (ok: bool, ghost moves: seq<Call>)
      requires Valid(cloud.lbs, cloud.nextID) && Moving(cloud.lbs, id, current, selected, plugs)
      requires AllPlugged(selected - current, plugs) && forall c :: c in plugs ==> c.Plug?
      modifies cloud`lbs, cloud`log, cloud`clock
      ensures Valid(cloud.lbs, cloud.nextID) && TargetsOnly(old(cloud.lbs), cloud.lbs, id)
      ensures Moving(cloud.lbs, id, current, selected, plugs + moves) && cloud.log == old(cloud.log) + moves
      ensures ok ==> Targets(current, plugs + moves) == selected
      ensures old(cloud.Calm()) && id in old(cloud.lbs) ==> ok && cloud.Calm() && id in cloud.lbs
    {
      var left := current;
      ok, moves := true, [];
      assert plugs + [] == plugs;
      while left != {} && ok
        invariant left <= current && Valid(cloud.lbs, cloud.nextID) && TargetsOnly(old(cloud.lbs), cloud.lbs, id)
        invariant Moving(cloud.lbs, id, current, selected, plugs + moves) && cloud.log == old(cloud.log) + moves
        invariant forall c :: c in moves ==> c.Unplug? && c.server !in left
        invariant ok ==> forall s :: s in current - selected && s !in left ==> Unplug(s) in moves
        invariant old(cloud.Calm()) && id in old(cloud.lbs) ==> ok && cloud.Calm() && id in cloud.lbs
        decreases |left|
      {
        var s :| s in left;
        left := left - {s};
        if s !in selected {
          ghost var one;
          ok, one := DetachOne(id, s, current, selected, plugs + moves);
          assert plugs + (moves + one) == plugs + moves + one;
          moves := moves + one;
        }
      }
      if ok { AllMoved(current, selected, plugs + moves); }
    }

    /** The recorded load balancer, else the one of the object's name, else a new one; so the
        cloud is never asked to create a name it has. */
    method FoundOrCreated(obj: HCloudLoadBalancer)
      returns (r: Reply<nat>, targets: seq<nat>, ghost made: seq<Call>, ghost id: nat)
      requires Valid(cloud.lbs, cloud.nextID)
      modifies cloud
      ensures Valid(cloud.lbs, cloud.nextID) && Others(old(cloud.lbs), cloud.lbs, id)
      ensures cloud.log == old(cloud.log) + made && (made == [] || made == [CreateLB])
      ensures made == [] && id in cloud.lbs ==> id in old(cloud.lbs) && cloud.lbs[id] == old(cloud.lbs)[id]
      ensures r.Got? ==> r.value == id && id in cloud.lbs && cloud.lbs[id].targets == targets
      ensures r.Got? && made == [CreateLB] ==> id !in old(cloud.lbs) && cloud.lbs[id] == LB(obj.name, [], [])
      ensures r.Got? ==> id == obj.status.id || cloud.lbs[id].name == obj.name
      ensures r.Got? && obj.status.id != 0 && id != obj.status.id ==> obj.status.id !in cloud.lbs
      ensures r.Failed? ==> r.fault == Transport
      ensures old(cloud.Calm()) ==> r.Got? && cloud.Calm()
    {
      id, made, targets := 0, [], [];
      if obj.status.id != 0 {
        var found := cloud.GetByID(obj.status.id);
        if found.Failed? { return Failed(found.fault), [], [], id; }
        if found.value.Some? { return Got(obj.status.id), found.value.value.targets, [], obj.status.id; }
      }
      var named := cloud.GetByName(obj.name);
      if named.Failed? { return Failed(named.fault), [], [], id; }
      if named.value.Some? {
        var n := named.value.value;
        return Got(n), cloud.lbs[n].targets, [], n;
      }
      ghost var before := cloud.log;
      id := cloud.nextID;
      r := cloud.Create(obj.name);
      made := if cloud.log == before then [] else [CreateLB];
    }

    method MoveTargets(id: nat, targets: seq<nat>, selected: set<nat>) returns (ok: bool, ghost moves: seq<Call>)
      requires Valid(cloud.lbs, cloud.nextID) && id in cloud.lbs && cloud.lbs[id].targets == targets
      modifies cloud`lbs, cloud`log, cloud`clock
      ensures Valid(cloud.lbs, cloud.nextID) && TargetsOnly(old(cloud.lbs), cloud.lbs, id)
      ensures Moving(cloud.lbs, id, Elements(targets), selected, moves) && cloud.log == old(cloud.log) + moves
      ensures ok ==> Targets(Elements(targets), moves) == selected
      ensures old(cloud.Calm()) && selected <= cloud.servers ==> ok && cloud.Calm() && id in cloud.lbs
    {
      var current := Elements(targets);
      Unmoved(cloud.lbs, id, current, selected);
      ok, moves := AttachMissing(id, current, selected);
      if !ok { return; }
      ghost var unplugs;
      ok, unplugs := DetachSurplus(id, current, selected, moves);
      moves := moves + unplugs;
    }

    method PushAndRecord(obj: HCloudLoadBalancer, id: nat, desired: seq<Services.Service>)
      returns (end: End, ghost pushed: seq<Call>)
      requires Valid(cloud.lbs, cloud.nextID)
      modifies obj`status, cloud`lbs, cloud`log, cloud`clock
      ensures Valid(cloud.lbs, cloud.nextID) && Others(old(cloud.lbs), cloud.lbs, id)
      ensures cloud.log == old(cloud.log) + pushed && (pushed == [] || pushed == [PushServices(desired)])
      ensures id in cloud.lbs ==> id in old(cloud.lbs) && cloud.lbs[id].targets == old(cloud.lbs)[id].targets
                                  && cloud.lbs[id].name == old(cloud.lbs)[id].name
      ensures end.Errored? ==> obj.status == old(obj.status)
      ensures end == Finished ==>
                && pushed != [] && id in cloud.lbs && cloud.lbs[id].services == desired
                && obj.status == Status(id, SortBy(LeNat, cloud.lbs[id].targets))
      ensures end != Pending && (old(cloud.Calm()) && id in old(cloud.lbs) ==> end == Finished)
    {
      ghost var before := cloud.log;
      pushed := [];
      var synced := cloud.Sync(id, desired);
      if cloud.log != before { pushed := [PushServices(desired)]; }
      if synced.Failed? { end := Errored(synced.fault); return; }
      var refreshed := cloud.GetByID(id);
      if refreshed.Failed? { end := Errored(refreshed.fault); return; }
      if refreshed.value.None? { end := Errored(Disappeared); return; }
      obj.status := Status(id, SortBy(LeNat, refreshed.value.value.targets));
      end := Finished;
    }

    /** Create if need be, move the targets, push the services; every call is accounted for. */
    method ReconcileWithServices(obj: HCloudLoadBalancer, selected: set<nat>, desired: seq<Services.Service>)
      returns (end: End, ghost made: seq<Call>, ghost moves: seq<Call>, ghost pushed: seq<Call>, ghost id: nat)
      requires Valid(cloud.lbs, cloud.nextID)
      modifies obj`status, cloud
      ensures Valid(cloud.lbs, cloud.nextID) && Others(old(cloud.lbs), cloud.lbs, id)
      ensures cloud.log == old(cloud.log) + made + moves + pushed
      ensures Calls(old(cloud.lbs), id, selected, desired, made, moves, pushed)
      ensures end.Errored? ==> obj.status == old(obj.status)
      ensures end == Finished ==>
                pushed != [] && InSync(obj.name, old(obj.status.id), obj.status, cloud.lbs, selected, desired)
      ensures end != Pending && (old(cloud.Calm()) && selected <= cloud.servers ==> end == Finished)
    {
      var found, targets;
      found, targets, made, id := FoundOrCreated(obj);
      moves, pushed := [], [];
      if found.Failed? { end := Errored(found.fault); return; }
      assert Elements(targets) == if made == [] then Current(old(cloud.lbs), id) else {};
      var ok;
      ok, moves := MoveTargets(found.value, targets, selected);
      if !ok { end := Errored(Transport); return; }
      end, pushed := PushAndRecord(obj, found.value, desired);
      if end == Finished { SortedTargets(cloud.lbs[id].targets); }
    }

    /** The whole pass.  Nothing at all is called before every certificate is ready; then no
        service is pushed that lacks a certificate. */
    method ReconcileLoadBalancer(obj: HCloudLoadBalancer, selected: set<nat>, env: Certificates)
      returns (end: End, ghost made: seq<Call>, ghost moves: seq<Call>, ghost pushed: seq<Call>, ghost id: nat)
      requires Valid(cloud.lbs, cloud.nextID)
      modifies obj`status, cloud
      ensures Valid(cloud.lbs, cloud.nextID) && Others(old(cloud.lbs), cloud.lbs, id)
      ensures cloud.log == old(cloud.log) + made + moves + pushed
      ensures FromSpecs(env, obj.services).Failed? || !AllReady(env, obj.services) ==>
                cloud.log == old(cloud.log) && cloud.lbs == old(cloud.lbs) && obj.status == old(obj.status)
      ensures end == Pending <==> FromSpecs(env, obj.services).Got? && !AllReady(env, obj.services)
      ensures FromSpecs(env, obj.services).Got? && AllReady(env, obj.services) ==>
                var desired := FromSpecs(env, obj.services).value.services;
                && Complete(env, obj.services, desired)
                && Calls(old(cloud.lbs), id, selected, desired, made, moves, pushed)
                && (old(cloud.Calm()) && selected <= cloud.servers ==> end == Finished)
                && (end == Finished ==>
                      pushed != [] && InSync(obj.name, old(obj.status.id), obj.status, cloud.lbs, selected, desired))
    {
      made, moves, pushed, id := [], [], [], 0;
      var desired := ServicesFromSpec(env, obj.services);
      if desired.Failed? { end := Errored(desired.fault); return; }
      ListenersComplete(env, obj.services);
      if desired.value.pending { end := Pending; return; }
      end, made, moves, pushed, id := ReconcileWithServices(obj, selected, desired.value.services);
    }
  }
}
