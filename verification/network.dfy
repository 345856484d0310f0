/** The subnets of a private network: one per zone of the spec
    (internal/controller/hcloudnetwork_controller.go:107-140, internal/hcloud/fake_client.go:755-771). */
module Networks {
  import opened Prelude
  import opened Texts

  /** What adding a subnet leaves. */
  function Zoned(zones: seq<string>, zone: string): seq<string> {
    if zone in zones then zones else SortBy(LeText, zones + [zone])
  }

  lemma ZonedIs(zones: seq<string>, zone: string)
    requires Distinct(zones)
    ensures Elements(Zoned(zones, zone)) == Elements(zones) + {zone} && Distinct(Zoned(zones, zone))
    ensures zone !in zones ==> Ordered(LeText, Zoned(zones, zone))
    ensures zone in zones ==> Zoned(zones, zone) == zones
  {
    if zone !in zones {
      LeTextOrders();
      SortOrders(LeText, zones + [zone]);
      SortMembers(LeText, zones + [zone]);
      SortKeepsDistinct(LeText, zones + [zone]);
    }
  }

  lemma {:induction false} DistinctSize(zones: seq<string>)
    requires Distinct(zones)
    ensures |Elements(zones)| == |zones|
  {
    if |zones| > 0 {
      var n := |zones| - 1;
      DistinctSize(zones[..n]);
      assert zones == zones[..n] + [zones[n]];
      assert Elements(zones) == Elements(zones[..n]) + {zones[n]};
    }
  }

  type Nets = map<nat, seq<string>>

  ghost predicate Valid(nets: Nets) { forall id :: id in nets ==> Distinct(nets[id]) }

  /** The zones of every network, and the zones subnets were requested for. */
  class FakeNetworks {
    var nets: Nets
    var log: seq<string>
    var clock: nat
    const moments: nat -> Moment

    constructor (moments: nat -> Moment)
      ensures Valid(nets) && nets == map[] && log == [] && this.moments == moments
    {
      nets, log, clock, this.moments := map[], [], 0, moments;
    }

    function Next(): Moment
      reads this
    {
      moments(clock)
    }

    ghost predicate Calm()
      reads this`clock
    {
      CalmFrom(moments, clock)
    }

    method Tick() returns (fate: Fate)
      requires Valid(nets)
      modifies this`clock, this`nets
      ensures Valid(nets) && clock == old(clock) + 1
      ensures nets == old(nets) - old(Next()).gone && fate == old(Next()).fate
    {
      fate := moments(clock).fate;
      nets := nets - moments(clock).gone;
      clock := clock + 1;
    }

    method GetNetwork(id: nat) returns (r: Reply<Option<seq<string>>>)
      requires Valid(nets)
      modifies this`clock, this`nets
      ensures Valid(nets) && clock == old(clock) + 1 && nets == old(nets) - old(Next()).gone
      ensures r == Answer(old(Next()).fate, if id in nets then Some(nets[id]) else None)
    {
      var fate := Tick();
      r := Answer(fate, if id in nets then Some(nets[id]) else None);
    }

    method AddNetworkCloudSubnet(id: nat, zone: string) returns (r: Reply<()>)
      requires Valid(nets)
      modifies this
      ensures Valid(nets) && clock == old(clock) + 1
      ensures var there := old(nets) - old(Next()).gone;
              var reached := !old(Next()).fate.Refused? && id in there;
              && nets == (if reached then there[id := Zoned(there[id], zone)] else there)
              && log == old(log) + (if reached then [zone] else [])
              && (r.Got? <==> reached && old(Next()).fate.Works?)
    {
      var fate := Tick();
      if fate.Refused? { return Failed(Transport); }
      if id !in nets { return Failed(NotFound); }
      var zones := nets[id];
      log := log + [zone];
      var present := Present(zones, zone);
      if !present {
        ZonedIs(zones, zone);
        nets := nets[id := SortBy(LeText, zones + [zone])];
      }
      r := Answer(fate, ());
    }
  }

  method Present(zones: seq<string>, want: string) returns (present: bool)
    ensures present <==> want in zones
  {
    for i := 0 to |zones|
      invariant want !in zones[..i]
    {
      if zones[i] == want { return true; }
    }
    present := false;
  }

  // ---------- the reconciler ----------

  datatype End = Finished | Errored(fault: Fault)

  class HCloudNetwork {
    const zones: seq<string>
    var id: nat
    var subnetZones: seq<string>

    constructor (zones: seq<string>, id: nat, subnetZones: seq<string>)
      ensures this.zones == zones && this.id == id && this.subnetZones == subnetZones
    {
      this.zones, this.id, this.subnetZones := zones, id, subnetZones;
    }
  }

  /** The calls so far are one for each zone added, and the network has these and what it had. */
  ghost predicate Adding(nets: Nets, id: nat, initial: seq<string>, wanted: seq<string>, calls: seq<string>) {
    && Distinct(calls) && Elements(calls) <= Elements(wanted) - Elements(initial)
    && (id in nets ==> Elements(nets[id]) == Elements(initial) + Elements(calls))
  }

  lemma AddOne(nets: Nets, id: nat, initial: seq<string>, wanted: seq<string>, calls: seq<string>, zone: string)
    requires Valid(nets) && id in nets && Adding(nets, id, initial, wanted, calls)
    requires zone in wanted && zone !in initial && zone !in calls
    ensures Adding(nets[id := Zoned(nets[id], zone)], id, initial, wanted, calls + [zone])
    ensures Elements(calls + [zone]) == Elements(calls) + {zone}
  {
    ZonedIs(nets[id], zone);
    assert forall z :: z in calls + [zone] <==> z in calls || z == zone;
  }

  class NetworkReconciler {
    const cloud: FakeNetworks

    constructor (cloud: FakeNetworks)
      ensures this.cloud == cloud
    {
      this.cloud := cloud;
    }

    /** Add one zone that is missing, and read the network again. */
    method AddZone(id: nat, existing: seq<string>, zone: string,
                   ghost initial: seq<string>, ghost wanted: seq<string>, ghost before: seq<string>)
      returns (r: Reply<seq<string>>, ghost calls: seq<string>)
      requires Valid(cloud.nets) && Seen(cloud.nets, id, existing) && Adding(cloud.nets, id, initial, wanted, before)
      requires zone in wanted && zone !in initial && zone !in before
      modifies cloud
      ensures Valid(cloud.nets) && Others(old(cloud.nets), cloud.nets, id)
      ensures Adding(cloud.nets, id, initial, wanted, before + calls) && cloud.log == old(cloud.log) + calls
      ensures calls == [] || calls == [zone]
      ensures r.Got? ==> calls == [zone] && id in cloud.nets && cloud.nets[id] == r.value
      ensures old(cloud.Calm()) && id in old(cloud.nets) ==> r.Got? && cloud.Calm()
    {
      ghost var there, log := cloud.nets - cloud.Next().gone, cloud.log;
      var added := cloud.AddNetworkCloudSubnet(id, zone);
      calls := if cloud.log == log then [] else [zone];
      assert before + [] == before;
      if calls != [] { AddOne(there, id, initial, wanted, before, zone); }
      if added.Failed? { return Failed(added.fault), calls; }
      var refreshed := cloud.GetNetwork(id);
      if refreshed.Failed? { return Failed(refreshed.fault), calls; }
      if refreshed.value.None? { return Failed(Disappeared), calls; }
      r := Got(refreshed.value.value);
    }

    /** The loop over the spec's zones, which may repeat. */
    method AddSubnets(id: nat, initial: seq<string>, wanted: seq<string>)
      returns (r: Reply<seq<string>>, ghost calls: seq<string>)
      requires Valid(cloud.nets) && id in cloud.nets && cloud.nets[id] == initial
      modifies cloud
      ensures Valid(cloud.nets) && Others(old(cloud.nets), cloud.nets, id)
      ensures Adding(cloud.nets, id, initial, wanted, calls) && cloud.log == old(cloud.log) + calls
      ensures r.Got? ==> Seen(cloud.nets, id, r.value) && AllAdded(r.value, initial, wanted, calls)
      ensures old(cloud.Calm()) ==> r.Got?
    {
      var existing := initial;
      calls := [];
      for i := 0 to |wanted|
        invariant Valid(cloud.nets) && Others(old(cloud.nets), cloud.nets, id)
        invariant Seen(cloud.nets, id, existing)
        invariant Adding(cloud.nets, id, initial, wanted, calls) && cloud.log == old(cloud.log) + calls
        invariant AllAdded(existing, initial, wanted[..i], calls)
        invariant old(cloud.Calm()) ==> cloud.Calm() && id in cloud.nets
      {
        var zone := wanted[i];
        assert wanted[..i + 1] == wanted[..i] + [zone];
        var present := Present(existing, zone);
        if present {
          NothingToAdd(existing, initial, wanted[..i], calls, zone);
        } else {
          NotYet(existing, initial, wanted[..i], calls, zone);
          ghost var one;
          r, one := AddZone(id, existing, zone, initial, wanted, calls);
          if r.Got? { OneAdded(existing, r.value, initial, wanted[..i], calls, zone); }
          calls := calls + one;
          if r.Failed? { return; }
          existing := r.value;
        }
      }
      assert wanted[..|wanted|] == wanted;
      r := Got(existing);
    }

    /** After a successful pass the network has the zones it had and those of the spec, each
        missing one was asked for exactly once, and the status lists the zones in order. */
    method ReconcileSubnets(obj: HCloudNetwork, id: nat, initial: seq<string>)
      returns (end: End, ghost calls: seq<string>)
      requires Valid(cloud.nets) && id in cloud.nets && cloud.nets[id] == initial
      modifies obj`id, obj`subnetZones, cloud
      ensures Valid(cloud.nets) && Others(old(cloud.nets), cloud.nets, id)
      ensures Adding(cloud.nets, id, initial, obj.zones, calls) && cloud.log == old(cloud.log) + calls
      ensures |calls| <= |Elements(obj.zones) - Elements(initial)|
      ensures end.Errored? ==> unchanged(obj)
      ensures end == Finished ==> |calls| == |Elements(obj.zones) - Elements(initial)|
      ensures end == Finished ==> obj.id == id && Listed(obj.subnetZones, Elements(initial) + Elements(obj.zones))
      ensures end == Finished && id in cloud.nets ==> multiset(obj.subnetZones) == multiset(cloud.nets[id])
      ensures old(cloud.Calm()) ==> end == Finished
    {
      var r;
      r, calls := AddSubnets(id, initial, obj.zones);
      AtMost(obj.zones, initial, calls);
      if r.Failed? { return Errored(r.fault), calls; }
      SortedZones(r.value, initial, obj.zones, calls);
      obj.id, obj.subnetZones := id, SortBy(LeText, r.value);
      end := Finished;
    }
  }

  /** The zones are sorted, without repeats, and exactly these. */
  ghost predicate Listed(zones: seq<string>, all: set<string>) {
    Elements(zones) == all && Ordered(LeText, zones) && Distinct(zones)
  }

  /** The zones are the initial ones and those wanted, and the calls those that were missing. */
  ghost predicate AllAdded(zones: seq<string>, initial: seq<string>, wanted: seq<string>, calls: seq<string>) {
    && Distinct(zones)
    && Elements(zones) == Elements(initial) + Elements(wanted)
    && Elements(calls) == Elements(wanted) - Elements(initial)
  }

  lemma ZoneMore(zones: seq<string>, zone: string)
    ensures Elements(zones + [zone]) == Elements(zones) + {zone}
  {
    assert forall z :: z in zones + [zone] <==> z in zones || z == zone;
  }

  lemma NothingToAdd(zones: seq<string>, initial: seq<string>, wanted: seq<string>, calls: seq<string>, zone: string)
    requires AllAdded(zones, initial, wanted, calls) && zone in zones
    ensures AllAdded(zones, initial, wanted + [zone], calls)
  {
    ZoneMore(wanted, zone);
    assert zone in Elements(zones);
  }

  lemma NotYet(zones: seq<string>, initial: seq<string>, wanted: seq<string>, calls: seq<string>, zone: string)
    requires AllAdded(zones, initial, wanted, calls) && zone !in zones
    ensures zone !in initial && zone !in calls
  {
    assert zone !in Elements(zones);
    assert forall z :: z in calls ==> z in Elements(calls);
  }

  lemma OneAdded(was: seq<string>, now: seq<string>, initial: seq<string>, wanted: seq<string>,
                 calls: seq<string>, zone: string)
    requires AllAdded(was, initial, wanted, calls) && zone !in was
    requires Distinct(now) && Elements(now) == Elements(initial) + Elements(calls + [zone])
    ensures AllAdded(now, initial, wanted + [zone], calls + [zone])
  {
    NotYet(was, initial, wanted, calls, zone);
    ZoneMore(wanted, zone);
    ZoneMore(calls, zone);
  }

  lemma SortedZones(zones: seq<string>, initial: seq<string>, wanted: seq<string>, calls: seq<string>)
    requires AllAdded(zones, initial, wanted, calls)
    ensures Listed(SortBy(LeText, zones), Elements(initial) + Elements(wanted))
    ensures multiset(SortBy(LeText, zones)) == multiset(zones)
  {
    LeTextOrders();
    SortMembers(LeText, zones);
    SortOrders(LeText, zones);
    SortPermutes(LeText, zones);
    SortKeepsDistinct(LeText, zones);
  }

  lemma AtMost(wanted: seq<string>, initial: seq<string>, calls: seq<string>)
    requires Distinct(calls) && Elements(calls) <= Elements(wanted) - Elements(initial)
    ensures |calls| <= |Elements(wanted) - Elements(initial)| && |calls| == |Elements(calls)|
  {
    DistinctSize(calls);
    Subsets(Elements(calls), Elements(wanted) - Elements(initial));
  }

  lemma Subsets(a: set<string>, b: set<string>)
    requires a <= b
    ensures |a| <= |b|
  {
    assert b == a + (b - a);
  }
}
