/** The firewall pass in place, against the in-memory cloud
    (internal/controller/hcloudfirewall_controller.go:67-145, 148-180, 197-208, 236-259, 279-299;
    internal/hcloud/fake_client.go:615-753). */
module FirewallPass {
  import opened Prelude
  import opened Firewalls
  import Rules = FirewallRules

  datatype Call =
    | CreateFirewall
    | SetLabels(labels: map<string, string>)
    | SetRules(rules: seq<Rules.Rule>)
    | Remove(targets: seq<Resource>)
    | Apply(targets: seq<Resource>)

  type FWs = map<nat, FW>

  /** What a call makes of the firewall it names. */
  function After(fw: FW, c: Call): FW {
    match c
    case CreateFirewall => fw
    case SetLabels(labels) => fw.(labels := Some(labels))
    case SetRules(rules) => fw.(rules := Rules.Normals(rules))
    case Remove(rs) => fw.(applied := Kept(fw.applied, KeySet(rs)))
    case Apply(rs) => fw.(applied := Applied(fw.applied, rs))
  }

  ghost predicate Sound(fw: FW) { OneKeyEach(fw.applied) && AllUsed(fw.applied) }

  ghost predicate Valid(fws: FWs, nextID: nat) {
    && nextID > 0
    && (forall id :: id in fws ==> 0 < id < nextID && Sound(fws[id]))
    && (forall i, j :: i in fws && j in fws && fws[i].name == fws[j].name ==> i == j)
  }

  predicate Taken(fws: FWs, name: string) { exists id :: id in fws && fws[id].name == name }

  predicate Reached(fws: FWs, m: Moment, id: nat) { !m.fate.Refused? && id in fws && id !in m.gone }

  function Left(fws: FWs, m: Moment, id: nat, c: Call): FWs {
    if Reached(fws, m, id) then (fws - m.gone)[id := After(fws[id], c)] else fws - m.gone
  }

  class FakeFirewalls {
    var fws: FWs
    var nextID: nat
    var log: seq<Call>
    var clock: nat
    const moments: nat -> Moment

    constructor (moments: nat -> Moment)
      ensures Valid(fws, nextID) && fws == map[] && log == [] && this.moments == moments
    {
      fws, nextID, log, clock, this.moments := map[], 1, [], 0, moments;
    }

    /** What the next call meets. */
    function Next(): Moment
      reads this
    {
      moments(clock)
    }

    ghost predicate Calm()
      reads this`clock
    {
      CalmFrom(moments, clock)
    }

    method Tick() returns (fate: Fate)
      requires Valid(fws, nextID)
      modifies this`clock, this`fws
      ensures Valid(fws, nextID) && clock == old(clock) + 1
      ensures fws == old(fws) - old(Next()).gone && fate == old(Next()).fate
    {
      fate := moments(clock).fate;
      fws := fws - moments(clock).gone;
      clock := clock + 1;
    }

    method GetFirewall(id: nat) returns (r: Reply<Option<FW>>)
      requires Valid(fws, nextID)
      modifies this`clock, this`fws
      ensures Valid(fws, nextID) && clock == old(clock) + 1 && fws == old(fws) - old(Next()).gone
      ensures r == Answer(old(Next()).fate, if id in fws then Some(fws[id]) else None)
    {
      var fate := Tick();
      r := Answer(fate, if id in fws then Some(fws[id]) else None);
    }

    method GetFirewallByName(name: string) returns (r: Reply<Option<nat>>)
      requires Valid(fws, nextID)
      modifies this`clock, this`fws
      ensures Valid(fws, nextID) && clock == old(clock) + 1 && fws == old(fws) - old(Next()).gone
      ensures (r.Got? <==> old(Next()).fate.Works?) && (r.Failed? ==> r.fault == Transport)
      ensures r.Got? && r.value.Some? ==> r.value.value in fws && fws[r.value.value].name == name
      ensures r.Got? && r.value.None? ==> forall id :: id in fws ==> fws[id].name != name
    {
      var fate := Tick();
      if !fate.Works? { return Failed(Transport); }
      var left := fws.Keys;
      while left != {}
        invariant left <= fws.Keys && forall id :: id in fws && id !in left ==> fws[id].name != name
        decreases |left|
      {
        var id :| id in left;
        if fws[id].name == name { return Got(Some(id)); }
        left := left - {id};
      }
      r := Got(None);
    }

    method Create(fw: FW) returns (r: Reply<nat>)
      requires Valid(fws, nextID) && Sound(fw)
      modifies this
      ensures Valid(fws, nextID) && clock == old(clock) + 1
      ensures var there, m := old(fws) - old(Next()).gone, old(Next());
              var made := !m.fate.Refused? && !Taken(there, fw.name);
              && fws == (if made then there[old(nextID) := fw.(rules := Rules.Normals(fw.rules))] else there)
              && log == old(log) + (if made then [CreateFirewall] else [])
              && (made ==> r == Answer(m.fate, old(nextID)) && old(nextID) !in old(fws))
              && (!made ==> r == Failed(if m.fate.Refused? then Transport else AlreadyExists))
    {
      var fate := Tick();
      if fate.Refused? { return Failed(Transport); }
      if Taken(fws, fw.name) { return Failed(AlreadyExists); }
      var id := nextID;
      var rules := Rules.CloneRules(fw.rules);
      fws, nextID, log := fws[id := fw.(rules := rules)], nextID + 1, log + [CreateFirewall];
      r := Answer(fate, id);
    }

    method UpdateLabels(id: nat, labels: map<string, string>) returns (r: Reply<()>)
      requires Valid(fws, nextID)
      modifies this`fws, this`log, this`clock
      ensures Valid(fws, nextID) && clock == old(clock) + 1
      ensures fws == Left(old(fws), old(Next()), id, SetLabels(labels))
      ensures log == old(log) + if Reached(old(fws), old(Next()), id) then [SetLabels(labels)] else []
      ensures r.Got? <==> Reached(old(fws), old(Next()), id) && old(Next()).fate.Works?
      ensures r.Failed? ==> r.fault == Transport || r.fault == NotFound
    {
      var fate := Tick();
      if fate.Refused? { return Failed(Transport); }
      if id !in fws { return Failed(NotFound); }
      fws := fws[id := fws[id].(labels := Some(labels))];
      log := log + [SetLabels(labels)];
      r := Answer(fate, ());
    }

    method StoreRules(id: nat, rules: seq<Rules.Rule>) returns (r: Reply<()>)
      requires Valid(fws, nextID)
      modifies this`fws, this`log, this`clock
      ensures Valid(fws, nextID) && clock == old(clock) + 1
      ensures fws == Left(old(fws), old(Next()), id, SetRules(rules))
      ensures log == old(log) + if Reached(old(fws), old(Next()), id) then [SetRules(rules)] else []
      ensures r.Got? <==> Reached(old(fws), old(Next()), id) && old(Next()).fate.Works?
      ensures r.Failed? ==> r.fault == Transport || r.fault == NotFound
    {
      var fate := Tick();
      if fate.Refused? { return Failed(Transport); }
      if id !in fws { return Failed(NotFound); }
      var clone := Rules.CloneRules(rules);
      fws := fws[id := fws[id].(rules := clone)];
      log := log + [SetRules(rules)];
      r := Answer(fate, ());
    }

    method RemoveResources(id: nat, rs: seq<Resource>) returns (r: Reply<()>)
      requires Valid(fws, nextID)
      modifies this`fws, this`log, this`clock
      ensures Valid(fws, nextID) && clock == old(clock) + 1
      ensures fws == Left(old(fws), old(Next()), id, Remove(rs))
      ensures log == old(log) + if Reached(old(fws), old(Next()), id) then [Remove(rs)] else []
      ensures r.Got? <==> Reached(old(fws), old(Next()), id) && old(Next()).fate.Works?
      ensures r.Failed? ==> r.fault == Transport || r.fault == NotFound
    {
      var fate := Tick();
      if fate.Refused? { return Failed(Transport); }
      if id !in fws { return Failed(NotFound); }
      var filtered := FilterOut(fws[id].applied, rs);
      KeptKeys(fws[id].applied, KeySet(rs));
      fws := fws[id := fws[id].(applied := filtered)];
      log := log + [Remove(rs)];
      r := Answer(fate, ());
    }

    method ApplyResources(id: nat, rs: seq<Resource>) returns (r: Reply<()>)
      requires Valid(fws, nextID) && AllUsed(rs)
      modifies this`fws, this`log, this`clock
      ensures Valid(fws, nextID) && clock == old(clock) + 1
      ensures fws == Left(old(fws), old(Next()), id, Apply(rs))
      ensures log == old(log) + if Reached(old(fws), old(Next()), id) then [Apply(rs)] else []
      ensures r.Got? <==> Reached(old(fws), old(Next()), id) && old(Next()).fate.Works?
      ensures r.Failed? ==> r.fault == Transport || r.fault == NotFound
    {
      var fate := Tick();
      if fate.Refused? { return Failed(Transport); }
      if id !in fws { return Failed(NotFound); }
      var longer := AppendNew(fws[id].applied, rs);
      AppliedKeys(fws[id].applied, rs);
      fws := fws[id := fws[id].(applied := longer)];
      log := log + [Apply(rs)];
      r := Answer(fate, ());
    }
  }

  method FilterOut(current: seq<Resource>, rs: seq<Resource>) returns (filtered: seq<Resource>)
    ensures filtered == Kept(current, KeySet(rs))
  {
    var remove: set<string> := {};
    for i := 0 to |rs|
      invariant remove == KeySet(rs[..i])
    {
      assert rs[..i + 1] == rs[..i] + [rs[i]];
      KeysAppend(rs[..i], rs[i]);
      remove := remove + {Key(rs[i])};
    }
    assert rs[..|rs|] == rs;
    filtered := [];
    for i := 0 to |current|
      invariant filtered == Kept(current[..i], remove)
    {
      assert current[..i + 1][..i] == current[..i];
      if Key(current[i]) !in remove { filtered := filtered + [current[i]]; }
    }
    assert current[..|current|] == current;
  }

  method AppendNew(current: seq<Resource>, rs: seq<Resource>) returns (applied: seq<Resource>)
    ensures applied == Applied(current, rs)
  {
    applied := current;
    var keys := KeySet(current);
    for i := 0 to |rs|
      invariant applied == Applied(current, rs[..i]) && keys == KeySet(applied)
    {
      assert rs[..i + 1][..i] == rs[..i];
      if Key(rs[i]) !in keys {
        KeysAppend(applied, rs[i]);
        applied, keys := applied + [rs[i]], keys + {Key(rs[i])};
      }
    }
    assert rs[..|rs|] == rs;
  }

  // ---------- what to change ----------

  method ByKey(rs: seq<Resource>) returns (m: map<string, Resource>)
    ensures m.Keys == KeySet(rs) && forall k :: k in m ==> m[k] in rs && Key(m[k]) == k
  {
    m := map[];
    for i := 0 to |rs|
      invariant m.Keys == KeySet(rs[..i]) && forall k :: k in m ==> m[k] in rs && Key(m[k]) == k
    {
      assert rs[..i + 1] == rs[..i] + [rs[i]];
      KeysAppend(rs[..i], rs[i]);
      m := m[Key(rs[i]) := rs[i]];
    }
    assert rs[..|rs|] == rs;
  }

  /** The entries whose keys are not in `other`, in the order the map yields them. */
  method Missing(m: map<string, Resource>, other: set<string>, ghost from: seq<Resource>) returns (out: seq<Resource>)
    requires forall k :: k in m ==> m[k] in from && Key(m[k]) == k
    ensures KeySet(out) == m.Keys - other && forall r :: r in out ==> r in from
  {
    out := [];
    var left := m.Keys;
    while left != {}
      invariant left <= m.Keys && KeySet(out) == m.Keys - left - other && forall r :: r in out ==> r in from
      decreases |left|
    {
      var k :| k in left;
      left := left - {k};
      if k !in other {
        KeysAppend(out, m[k]);
        assert m.Keys - left - other == KeySet(out) + {k};
        out := out + [m[k]];
      } else {
        assert m.Keys - left - other == KeySet(out);
      }
    }
  }

  method PartitionApplyTargets(current: seq<Resource>, desired: seq<Resource>)
    returns (remove: seq<Resource>, add: seq<Resource>)
    ensures KeySet(remove) == KeySet(current) - KeySet(desired) && forall r :: r in remove ==> r in current
    ensures KeySet(add) == KeySet(desired) - KeySet(current) && forall r :: r in add ==> r in desired
  {
    var cur := ByKey(current);
    var des := ByKey(desired);
    remove := Missing(cur, des.Keys, current);
    add := Missing(des, cur.Keys, desired);
  }

  lemma NoKeys(rs: seq<Resource>)
    ensures KeySet(rs) == {} <==> rs == []
  {
    if rs != [] { assert Key(rs[0]) in KeySet(rs); }
  }

  method DesiredApplyResources(env: Servers, to: Option<ApplyTo>) returns (r: Reply<seq<Resource>>)
    ensures r == DesiredApply(env, to)
  {
    if to.None? { return Got([]); }
    var refs := to.value.servers;
    var out := if to.value.selector != "" then [Resource("label_selector", 0, to.value.selector)] else [];
    ghost var first := out;
    var seen: set<nat> := {};
    ghost var ids: seq<nat> := [];
    for i := 0 to |refs|
      invariant DesiredServers(env, refs[..i]) == Got(ids)
      invariant out == first + OfServers(ids) && forall id :: id in seen <==> id in ids
    {
      assert refs[..i + 1][..i] == refs[..i];
      if refs[i] != "" {
        if refs[i] !in env {
          DesiredServersAre(env, refs);
          OneReason(env, refs);
          return Failed(Unresolved);
        }
        var id := env[refs[i]];
        if id != 0 && id !in seen {
          seen := seen + {id};
          assert OfServers(ids + [id]) == OfServers(ids) + [Resource("server", id, "")];
          ids := ids + [id];
          out := out + [Resource("server", id, "")];
        }
      }
    }
    assert refs[..|refs|] == refs;
    r := Got(out);
  }

  lemma {:induction false} OneReason(env: Servers, refs: seq<string>)
    ensures DesiredServers(env, refs).Failed? ==> DesiredServers(env, refs) == Failed(Unresolved)
    decreases |refs|
  {
    if |refs| > 0 { OneReason(env, refs[..|refs| - 1]); }
  }

  lemma ApplyFailsUnresolved(env: Servers, to: Option<ApplyTo>)
    ensures DesiredApply(env, to).Failed? ==> DesiredApply(env, to) == Failed(Unresolved)
  {
    if to.Some? { OneReason(env, to.value.servers); }
  }

  // ---------- the reconciler ----------

  datatype Spec = Spec(labels: Labels, rules: seq<Rules.Rule>, applyTo: Option<ApplyTo>)

  class HCloudFirewall {
    const name: string
    const spec: Spec
    var id: nat

    constructor (name: string, spec: Spec, id: nat)
      ensures this.name == name && this.spec == spec && this.id == id
    {
      this.name, this.spec, this.id := name, spec, id;
    }
  }

  /** The attachments lie between what both lists have and what either has. */
  ghost predicate Between(now: seq<Resource>, was: seq<Resource>, desired: seq<Resource>) {
    KeySet(was) * KeySet(desired) <= KeySet(now) <= KeySet(was) + KeySet(desired)
  }

  /** Where in a pass a call belongs. */
  function Stage(c: Call): nat {
    match c
    case SetLabels(_) => 0
    case SetRules(_) => 1
    case Remove(_) => 2
    case Apply(_) => 3
    case CreateFirewall => 4
  }

  /** The calls made since `was` belong to the stages before `to`, from `from` on; no stage is
      repeated and none comes back. */
  ghost predicate InOrder(was: seq<Call>, now: seq<Call>, from: nat, to: nat) {
    && was <= now
    && (forall i :: |was| <= i < |now| ==> from <= Stage(now[i]) < to)
    && (forall i, j :: |was| <= i < j < |now| ==> Stage(now[i]) < Stage(now[j]))
  }

  class FirewallReconciler {
    const cloud: FakeFirewalls

    constructor (cloud: FakeFirewalls)
      ensures this.cloud == cloud
    {
      this.cloud := cloud;
    }

    /** Read the firewall again; if it is gone the pass goes on with what it knew. */
    method Refresh(id: nat, known: FW) returns (r: Reply<FW>)
      requires Valid(cloud.fws, cloud.nextID)
      modifies cloud`fws, cloud`clock
      ensures Valid(cloud.fws, cloud.nextID) && cloud.fws == old(cloud.fws) - old(cloud.Next()).gone
      ensures r.Got? ==> Seen(cloud.fws, id, r.value)
      ensures r != Failed(AlreadyExists)
      ensures old(cloud.Calm()) ==> r.Got? && cloud.Calm()
    {
      var found := cloud.GetFirewall(id);
      if found.Failed? { return Failed(found.fault); }
      r := Got(if found.value.Some? then found.value.value else known);
    }

    method EnsureLabels(id: nat, fw: FW, labels: Labels) returns (r: Reply<FW>)
      requires Valid(cloud.fws, cloud.nextID) && Seen(cloud.fws, id, fw)
      modifies cloud`fws, cloud`log, cloud`clock
      ensures Valid(cloud.fws, cloud.nextID) && Others(old(cloud.fws), cloud.fws, id)
      ensures id in cloud.fws ==> id in old(cloud.fws) && cloud.fws[id] == fw.(labels := cloud.fws[id].labels)
      ensures r.Got? ==> Seen(cloud.fws, id, r.value)
      ensures r.Got? && id in cloud.fws ==> SameLabels(cloud.fws[id].labels, labels)
      ensures SameLabels(fw.labels, labels) ==> unchanged(cloud) && r == Got(fw)
      ensures InOrder(old(cloud.log), cloud.log, 0, 1)
      ensures r != Failed(AlreadyExists)
      ensures old(cloud.Calm()) && id in old(cloud.fws) ==> r.Got? && cloud.Calm() && id in cloud.fws
    {
      NormIs(fw.labels, labels);
      NormIs(Some(Norm(labels)), labels);
      if Norm(labels) == Norm(fw.labels) { return Got(fw); }
      var updated := cloud.UpdateLabels(id, Norm(labels));
      if updated.Failed? { return Failed(updated.fault); }
      r := Refresh(id, fw);
    }

    method EnsureRules(id: nat, fw: FW, rules: seq<Rules.Rule>) returns (r: Reply<FW>)
      requires Valid(cloud.fws, cloud.nextID) && Seen(cloud.fws, id, fw)
      modifies cloud`fws, cloud`log, cloud`clock
      ensures Valid(cloud.fws, cloud.nextID) && Others(old(cloud.fws), cloud.fws, id)
      ensures id in cloud.fws ==> id in old(cloud.fws) && cloud.fws[id] == fw.(rules := cloud.fws[id].rules)
      ensures r.Got? ==> Seen(cloud.fws, id, r.value)
      ensures r.Got? && id in cloud.fws ==> Rules.Match(rules, cloud.fws[id].rules)
      ensures id in cloud.fws ==> cloud.fws[id].rules == fw.rules || cloud.fws[id].rules == Rules.Normals(rules)
      ensures Rules.Match(rules, fw.rules) ==> unchanged(cloud) && r == Got(fw)
      ensures InOrder(old(cloud.log), cloud.log, 1, 2)
      ensures r != Failed(AlreadyExists)
      ensures old(cloud.Calm()) && id in old(cloud.fws) ==> r.Got? && cloud.Calm() && id in cloud.fws
    {
      var same := Rules.RulesMatch(rules, fw.rules);
      if same { return Got(fw); }
      Rules.StoredMatch(rules);
      var updated := cloud.StoreRules(id, rules);
      if updated.Failed? { return Failed(updated.fault); }
      r := Refresh(id, fw);
    }

    method RemoveSurplus(id: nat, ghost fw: FW, surplus: seq<Resource>) returns (r: Reply<()>)
      requires Valid(cloud.fws, cloud.nextID) && Seen(cloud.fws, id, fw)
      modifies cloud`fws, cloud`log, cloud`clock
      ensures Valid(cloud.fws, cloud.nextID) && Others(old(cloud.fws), cloud.fws, id)
      ensures id in cloud.fws ==> id in old(cloud.fws) && cloud.fws[id] == fw.(applied := cloud.fws[id].applied)
      ensures id in cloud.fws ==> var now := KeySet(cloud.fws[id].applied);
                (now == KeySet(fw.applied) && r.Failed?) || now == KeySet(fw.applied) - KeySet(surplus)
      ensures surplus == [] ==> unchanged(cloud) && r == Got(())
      ensures InOrder(old(cloud.log), cloud.log, 2, 3)
      ensures r != Failed(AlreadyExists)
      ensures old(cloud.Calm()) && id in old(cloud.fws) ==> r.Got? && cloud.Calm() && id in cloud.fws
    {
      if |surplus| == 0 { return Got(()); }
      KeptKeys(fw.applied, KeySet(surplus));
      r := cloud.RemoveResources(id, surplus);
    }

    method AddMissing(id: nat, ghost fw: FW, missing: seq<Resource>) returns (r: Reply<()>)
      requires Valid(cloud.fws, cloud.nextID) && Seen(cloud.fws, id, fw) && AllUsed(missing)
      modifies cloud`fws, cloud`log, cloud`clock
      ensures Valid(cloud.fws, cloud.nextID) && Others(old(cloud.fws), cloud.fws, id)
      ensures id in cloud.fws ==> id in old(cloud.fws) && cloud.fws[id] == fw.(applied := cloud.fws[id].applied)
      ensures id in cloud.fws ==> var now := KeySet(cloud.fws[id].applied);
                (now == KeySet(fw.applied) && r.Failed?) || now == KeySet(fw.applied) + KeySet(missing)
      ensures missing == [] ==> unchanged(cloud) && r == Got(())
      ensures InOrder(old(cloud.log), cloud.log, 3, 4)
      ensures r != Failed(AlreadyExists)
      ensures old(cloud.Calm()) && id in old(cloud.fws) ==> r.Got? && cloud.Calm() && id in cloud.fws
    {
      if |missing| == 0 { return Got(()); }
      AppliedKeys(fw.applied, missing);
      r := cloud.ApplyResources(id, missing);
    }

    method EnsureAttachments(id: nat, fw: FW, desired: seq<Resource>) returns (r: Reply<()>)
      requires Valid(cloud.fws, cloud.nextID) && Seen(cloud.fws, id, fw) && AllUsed(desired)
      modifies cloud`fws, cloud`log, cloud`clock
      ensures Valid(cloud.fws, cloud.nextID) && Others(old(cloud.fws), cloud.fws, id)
      ensures id in cloud.fws ==> id in old(cloud.fws) && cloud.fws[id] == fw.(applied := cloud.fws[id].applied)
                                  && Between(cloud.fws[id].applied, fw.applied, desired)
      ensures r.Got? && id in cloud.fws ==> KeySet(cloud.fws[id].applied) == KeySet(desired)
      ensures KeySet(fw.applied) == KeySet(desired) ==> unchanged(cloud) && r == Got(())
      ensures InOrder(old(cloud.log), cloud.log, 2, 4)
      ensures r != Failed(AlreadyExists)
      ensures old(cloud.Calm()) && id in old(cloud.fws) ==> r.Got? && cloud.Calm() && id in cloud.fws
    {
      var remove, add := PartitionApplyTargets(fw.applied, desired);
      NoKeys(remove);
      NoKeys(add);
      r := RemoveSurplus(id, fw, remove);
      if r.Failed? { return; }
      ghost var now := if id in cloud.fws then cloud.fws[id] else fw;
      r := AddMissing(id, now, add);
    }

    /** The pass on a firewall that exists is a fixpoint operator: if it succeeds the firewall is
        in sync, and on a firewall in sync it does nothing at all. */
    method ReconcileExisting(obj: HCloudFirewall, id: nat, existing: FW, rules: seq<Rules.Rule>, desired: seq<Resource>)
      returns (r: Reply<()>)
      requires Valid(cloud.fws, cloud.nextID) && Seen(cloud.fws, id, existing) && AllUsed(desired)
      modifies obj`id, cloud`fws, cloud`log, cloud`clock
      ensures Valid(cloud.fws, cloud.nextID) && Others(old(cloud.fws), cloud.fws, id) && obj.id == id
      ensures id in cloud.fws ==> id in old(cloud.fws) && cloud.fws[id].name == existing.name
                                  && Between(cloud.fws[id].applied, existing.applied, desired)
      ensures r.Got? && id in cloud.fws ==> InSync(cloud.fws[id], obj.spec.labels, rules, desired)
      ensures InSync(existing, obj.spec.labels, rules, desired) ==> unchanged(cloud) && r.Got?
      ensures InOrder(old(cloud.log), cloud.log, 0, 4)
      ensures r != Failed(AlreadyExists)
      ensures old(cloud.Calm()) && id in old(cloud.fws) ==> r.Got? && cloud.Calm() && id in cloud.fws
    {
      obj.id := id;
      var labelled := EnsureLabels(id, existing, obj.spec.labels);
      if labelled.Failed? { return Failed(labelled.fault); }
      var ruled := EnsureRules(id, labelled.value, rules);
      if ruled.Failed? { return Failed(ruled.fault); }
      r := EnsureAttachments(id, ruled.value, desired);
    }

    /** The recorded firewall, else the one of the object's name; none of either is no error. */
    method Find(obj: HCloudFirewall) returns (r: Reply<Option<nat>>, fw: FW)
      requires Valid(cloud.fws, cloud.nextID)
      modifies cloud`fws, cloud`clock
      ensures Valid(cloud.fws, cloud.nextID)
      ensures forall j :: j in cloud.fws ==> j in old(cloud.fws) && cloud.fws[j] == old(cloud.fws)[j]
      ensures r.Got? && r.value.Some? ==> r.value.value in cloud.fws && cloud.fws[r.value.value] == fw
      ensures r.Got? && r.value.Some? ==> r.value.value == obj.id || fw.name == obj.name
      ensures r.Got? && r.value.None? ==> forall j :: j in cloud.fws ==> cloud.fws[j].name != obj.name
      ensures r.Got? && obj.id != 0 && obj.id in cloud.fws ==> r.value == Some(obj.id)
      ensures r != Failed(AlreadyExists)
      ensures old(cloud.Calm()) ==> r.Got? && cloud.Calm() && cloud.fws == old(cloud.fws)
    {
      fw := FW("", None, [], []);
      if obj.id != 0 {
        var found := cloud.GetFirewall(obj.id);
        if found.Failed? { return Failed(found.fault), fw; }
        if found.value.Some? { return Got(Some(obj.id)), found.value.value; }
      }
      r := cloud.GetFirewallByName(obj.name);
      if r.Got? && r.value.Some? { fw := cloud.fws[r.value.value]; }
    }

    /** A firewall is created only when no other has its name, so the cloud cannot answer that
        it already exists. */
    method CreateMissing(obj: HCloudFirewall, rules: seq<Rules.Rule>, desired: seq<Resource>) returns (r: Reply<()>)
      requires Valid(cloud.fws, cloud.nextID) && AllUsed(desired) && OneKeyEach(desired)
      requires forall j :: j in cloud.fws ==> cloud.fws[j].name != obj.name
      modifies obj`id, cloud
      ensures Valid(cloud.fws, cloud.nextID) && (r.Failed? ==> r.fault == Transport)
      ensures r.Got? ==> obj.id in cloud.fws
                         && cloud.fws[obj.id] == FW(obj.name, obj.spec.labels, Rules.Normals(rules), desired)
      ensures forall j :: j in cloud.fws && j !in old(cloud.fws) ==> j >= old(cloud.nextID)
      ensures InOrder(old(cloud.log), cloud.log, 4, 5)
      ensures r != Failed(AlreadyExists)
      ensures old(cloud.Calm()) ==> r.Got?
    {
      var made := cloud.Create(FW(obj.name, obj.spec.labels, rules, desired));
      if made.Failed? { return Failed(made.fault); }
      obj.id := made.value;
      r := Got(());
    }

    /** Find or create the firewall and bring it in sync. */
    method ReconcileTo(obj: HCloudFirewall, rules: seq<Rules.Rule>, desired: seq<Resource>) returns (r: Reply<()>)
      requires Valid(cloud.fws, cloud.nextID) && AllUsed(desired) && OneKeyEach(desired)
      requires Rules.Match(rules, Rules.Normals(rules))
      modifies obj`id, cloud
      ensures Valid(cloud.fws, cloud.nextID)
      ensures r.Got? && obj.id in cloud.fws ==> InSync(cloud.fws[obj.id], obj.spec.labels, rules, desired)
      ensures r.Got? && old(obj.id) != 0 && old(obj.id) in cloud.fws && old(obj.id) in old(cloud.fws)
              && InSync(old(cloud.fws[obj.id]), obj.spec.labels, rules, desired)
              ==> cloud.log == old(cloud.log) && obj.id == old(obj.id)
      ensures InOrder(old(cloud.log), cloud.log, 0, 5)
      ensures r != Failed(AlreadyExists)
      ensures old(cloud.Calm()) ==> r.Got? && obj.id in cloud.fws
    {
      var found, fw := Find(obj);
      if found.Failed? { return Failed(found.fault); }
      if found.value.None? {
        r := CreateMissing(obj, rules, desired);
      } else {
        r := ReconcileExisting(obj, found.value.value, fw, rules, desired);
      }
    }

    /** The whole pass: after a success the firewall is in sync with the spec, and when the
        recorded firewall already is, nothing is changed. */
    method ReconcileHCloudFirewall(obj: HCloudFirewall, env: Servers) returns (r: Reply<()>)
      requires Valid(cloud.fws, cloud.nextID)
      modifies obj`id, cloud
      ensures Valid(cloud.fws, cloud.nextID)
      ensures InOrder(old(cloud.log), cloud.log, 0, 5)
      ensures r != Failed(AlreadyExists)
      ensures DesiredApply(env, obj.spec.applyTo).Failed? ==> unchanged(cloud) && unchanged(obj) && r.Failed?
      ensures DesiredApply(env, obj.spec.applyTo).Got? ==>
                var desired := DesiredApply(env, obj.spec.applyTo).value;
                && (r.Got? && obj.id in cloud.fws ==>
                      InSync(cloud.fws[obj.id], obj.spec.labels, obj.spec.rules, desired))
                && (r.Got? && old(obj.id) != 0 && old(obj.id) in cloud.fws && old(obj.id) in old(cloud.fws)
                    && InSync(old(cloud.fws[obj.id]), obj.spec.labels, obj.spec.rules, desired)
                    ==> cloud.log == old(cloud.log) && obj.id == old(obj.id))
                && (old(cloud.Calm()) ==> r.Got? && obj.id in cloud.fws)
    {
      var rules := Rules.CloneRules(obj.spec.rules);
      Rules.StoredMatch(obj.spec.rules);
      var wanted := DesiredApplyResources(env, obj.spec.applyTo);
      if wanted.Failed? {
        ApplyFailsUnresolved(env, obj.spec.applyTo);
        return Failed(wanted.fault);
      }
      DesiredAre(env, obj.spec.applyTo);
      r := ReconcileTo(obj, rules, wanted.value);
    }
  }
}
