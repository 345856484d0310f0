/** The firewall pass on an existing firewall: labels, rules, attachments
    (internal/controller/hcloudfirewall_controller.go:103-180, 210-234, 279-299;
    internal/hcloud/firewall.go:252-261; internal/hcloud/fake_client.go:690-753). */
module Firewalls {
  import opened Prelude
  import opened Texts
  import Rules = FirewallRules

  // ---------- attachments and their keys ----------

  /** What a firewall is applied to: a server, or whatever a label selector picks. */
  datatype Resource = Resource(kind: string, server: int, selector: string)

  function Key(r: Resource): string {
    if r.kind == "server" then "server:" + Decimal(r.server)
    else if r.kind == "label_selector" then "label_selector:" + r.selector
    else "unknown:" + r.kind
  }

  /** The two forms the operator and the cloud use. */
  predicate Used(r: Resource) {
    || (r.kind == "server" && r.selector == "")
    || (r.kind == "label_selector" && r.server == 0)
  }

  /** A key names one attachment. */
  lemma KeyInjective(a: Resource, b: Resource)
    requires Used(a) && Used(b) && Key(a) == Key(b)
    ensures a == b
  {
    assert Key(a)[0] == Key(b)[0];
    if a.kind == "server" {
      assert Key(a)[7..] == Decimal(a.server) && Key(b)[7..] == Decimal(b.server);
      DecimalInjective(a.server, b.server);
    } else {
      assert Key(a)[15..] == a.selector && Key(b)[15..] == b.selector;
    }
  }

  function KeySet(rs: seq<Resource>): set<string> { set r | r in rs :: Key(r) }

  ghost predicate OneKeyEach(rs: seq<Resource>) { forall i, j :: 0 <= i < j < |rs| ==> Key(rs[i]) != Key(rs[j]) }

  ghost predicate AllUsed(rs: seq<Resource>) { forall r :: r in rs ==> Used(r) }

  /** Lists with the same keys hold the same attachments. */
  lemma SameKeysSameResources(a: seq<Resource>, b: seq<Resource>)
    requires AllUsed(a) && AllUsed(b) && KeySet(a) == KeySet(b)
    ensures forall r :: r in a <==> r in b
  {
    forall r | r in a ensures r in b { Carried(r, a, b); }
    forall r | r in b ensures r in a { Carried(r, b, a); }
  }

  lemma Carried(r: Resource, from: seq<Resource>, to: seq<Resource>)
    requires r in from && AllUsed(from) && AllUsed(to) && KeySet(from) <= KeySet(to)
    ensures r in to
  {
    assert Key(r) in KeySet(from);
    var other :| other in to && Key(other) == Key(r);
    KeyInjective(r, other);
  }

  // ---------- what the cloud does with them ----------

  /** Append what is not there yet. */
  function Applied(current: seq<Resource>, asked: seq<Resource>): seq<Resource>
    decreases |asked|
  {
    if |asked| == 0 then current
    else
      var before, r := Applied(current, asked[..|asked| - 1]), asked[|asked| - 1];
      if Key(r) in KeySet(before) then before else before + [r]
  }

  /** Keep what has none of the keys. */
  function Kept(current: seq<Resource>, keys: set<string>): seq<Resource>
    decreases |current|
  {
    if |current| == 0 then []
    else
      var before, r := Kept(current[..|current| - 1], keys), current[|current| - 1];
      if Key(r) in keys then before else before + [r]
  }

  lemma KeysAppend(rs: seq<Resource>, r: Resource)
    ensures KeySet(rs + [r]) == KeySet(rs) + {Key(r)}
    ensures OneKeyEach(rs) && Key(r) !in KeySet(rs) ==> OneKeyEach(rs + [r])
    ensures AllUsed(rs) && Used(r) ==> AllUsed(rs + [r])
  {
    assert forall x :: x in rs + [r] <==> x in rs || x == r;
    assert forall i :: 0 <= i < |rs| ==> Key(rs[i]) in KeySet(rs);
  }

  lemma KeysFront(rs: seq<Resource>)
    requires |rs| > 0
    ensures KeySet(rs) == KeySet(rs[..|rs| - 1]) + {Key(rs[|rs| - 1])}
    ensures OneKeyEach(rs) ==> OneKeyEach(rs[..|rs| - 1]) && Key(rs[|rs| - 1]) !in KeySet(rs[..|rs| - 1])
    ensures AllUsed(rs) ==> AllUsed(rs[..|rs| - 1]) && Used(rs[|rs| - 1])
  {
    assert rs == rs[..|rs| - 1] + [rs[|rs| - 1]];
    KeysAppend(rs[..|rs| - 1], rs[|rs| - 1]);
  }

  lemma {:induction false} AppliedKeys(current: seq<Resource>, asked: seq<Resource>)
    ensures var after := Applied(current, asked);
            && KeySet(after) == KeySet(current) + KeySet(asked)
            && (OneKeyEach(current) ==> OneKeyEach(after))
            && (AllUsed(current) && AllUsed(asked) ==> AllUsed(after))
    decreases |asked|
  {
    if |asked| > 0 {
      var n := |asked| - 1;
      AppliedKeys(current, asked[..n]);
      KeysFront(asked);
      KeysAppend(Applied(current, asked[..n]), asked[n]);
    }
  }

  lemma {:induction false} KeptSet(current: seq<Resource>, keys: set<string>)
    ensures KeySet(Kept(current, keys)) == KeySet(current) - keys
    decreases |current|
  {
    if |current| > 0 {
      var n := |current| - 1;
      KeptSet(current[..n], keys);
      KeysFront(current);
      KeysAppend(Kept(current[..n], keys), current[n]);
    }
  }

  lemma {:induction false} KeptOnce(current: seq<Resource>, keys: set<string>)
    requires OneKeyEach(current)
    ensures OneKeyEach(Kept(current, keys))
    decreases |current|
  {
    if |current| > 0 {
      var n := |current| - 1;
      KeysFront(current);
      KeptOnce(current[..n], keys);
      if Key(current[n]) !in keys {
        KeptSet(current[..n], keys);
        KeysAppend(Kept(current[..n], keys), current[n]);
      }
    }
  }

  lemma {:induction false} KeptFrom(current: seq<Resource>, keys: set<string>)
    ensures forall r :: r in Kept(current, keys) ==> r in current
    decreases |current|
  {
    if |current| > 0 { KeptFrom(current[..|current| - 1], keys); }
  }

  lemma KeptKeys(current: seq<Resource>, keys: set<string>)
    ensures var after := Kept(current, keys);
            && KeySet(after) == KeySet(current) - keys
            && (OneKeyEach(current) ==> OneKeyEach(after))
            && (AllUsed(current) ==> AllUsed(after))
  {
    KeptSet(current, keys);
    KeptFrom(current, keys);
    if OneKeyEach(current) { KeptOnce(current, keys); }
  }

  // ---------- the desired attachments ----------

  /** None: no section at all in the spec. */
  datatype ApplyTo = ApplyTo(selector: string, servers: seq<string>)

  /** The recorded server ID of every server object; zero if it has none. */
  type Servers = map<string, nat>

  function DesiredServers(env: Servers, refs: seq<string>): Reply<seq<nat>>
    decreases |refs|
  {
    if |refs| == 0 then Got([])
    else
      var n := |refs| - 1;
      match DesiredServers(env, refs[..n])
      case Failed(f) => Failed(f)
      case Got(ids) =>
        if refs[n] == "" then Got(ids)
        else if refs[n] !in env then Failed(Unresolved)
        else if env[refs[n]] == 0 || env[refs[n]] in ids then Got(ids)
        else Got(ids + [env[refs[n]]])
  }

  function OfServers(ids: seq<nat>): (rs: seq<Resource>)
    ensures |rs| == |ids| && forall i :: 0 <= i < |ids| ==> rs[i] == Resource("server", ids[i], "")
  {
    seq(|ids|, i requires 0 <= i < |ids| => Resource("server", ids[i], ""))
  }

  function DesiredApply(env: Servers, to: Option<ApplyTo>): Reply<seq<Resource>> {
    if to.None? then Got([])
    else
      match DesiredServers(env, to.value.servers)
      case Failed(f) => Failed(f)
      case Got(ids) =>
        Got((if to.value.selector != "" then [Resource("label_selector", 0, to.value.selector)] else [])
            + OfServers(ids))
  }

  lemma {:induction false} DesiredServersAre(env: Servers, refs: seq<string>)
    ensures DesiredServers(env, refs).Failed? <==> exists ref :: ref in refs && ref != "" && ref !in env
    ensures DesiredServers(env, refs).Got? ==>
              var ids := DesiredServers(env, refs).value;
              && Distinct(ids)
              && forall id :: id in ids <==> id != 0 && Referenced(env, refs, id)
    decreases |refs|
  {
    if |refs| > 0 {
      var n := |refs| - 1;
      DesiredServersAre(env, refs[..n]);
      assert forall ref :: ref in refs <==> ref in refs[..n] || ref == refs[n];
    }
  }

  /** Servers enter the list in the order of the references. */
  lemma {:induction false} DesiredServersInOrder(env: Servers, refs: seq<string>, k: nat)
    requires k <= |refs| && DesiredServers(env, refs).Got?
    ensures DesiredServers(env, refs[..k]).Got?
    ensures DesiredServers(env, refs[..k]).value <= DesiredServers(env, refs).value
    decreases |refs|
  {
    if k < |refs| {
      var front := refs[..|refs| - 1];
      assert front[..k] == refs[..k];
      DesiredServersInOrder(env, front, k);
    } else {
      assert refs[..k] == refs;
    }
  }

  lemma OfServersAre(ids: seq<nat>)
    requires Distinct(ids)
    ensures AllUsed(OfServers(ids)) && OneKeyEach(OfServers(ids))
    ensures forall r :: r in OfServers(ids) <==> r.server in ids && r == Resource("server", r.server, "")
  {
    var rs := OfServers(ids);
    forall i, j | 0 <= i < j < |rs| ensures Key(rs[i]) != Key(rs[j]) {
      if Key(rs[i]) == Key(rs[j]) { KeyInjective(rs[i], rs[j]); }
    }
    forall r: Resource | r.server in ids && r == Resource("server", r.server, "") ensures r in rs {
      var i :| 0 <= i < |ids| && ids[i] == r.server;
      assert rs[i] == r;
    }
  }

  lemma SelectorFirst(selector: string, rs: seq<Resource>)
    requires AllUsed(rs) && OneKeyEach(rs) && forall r :: r in rs ==> r.kind == "server"
    ensures var all := [Resource("label_selector", 0, selector)] + rs;
            && AllUsed(all) && OneKeyEach(all)
            && forall r :: r in all <==> r in rs || r == Resource("label_selector", 0, selector)
  {
    var first := Resource("label_selector", 0, selector);
    forall r | r in rs ensures Key(r) != Key(first) { if Key(r) == Key(first) { KeyInjective(r, first); } }
    KeyInFront(first, rs);
  }

  lemma KeyInFront(first: Resource, rs: seq<Resource>)
    requires OneKeyEach(rs) && forall r :: r in rs ==> Key(r) != Key(first)
    ensures OneKeyEach([first] + rs)
  {
    var all := [first] + rs;
    forall i, j | 0 <= i < j < |all| ensures Key(all[i]) != Key(all[j]) {
      assert all[j] == rs[j - 1];
      if i > 0 { assert all[i] == rs[i - 1]; }
    }
  }

  /** The desired attachments are the selector, if there is one, and each server that is
      referenced by a name and has an ID, once; no section means none at all. */
  lemma DesiredAre(env: Servers, to: Option<ApplyTo>)
    requires DesiredApply(env, to).Got?
    ensures var rs := DesiredApply(env, to).value;
            && AllUsed(rs) && OneKeyEach(rs)
            && (to.None? ==> rs == [])
            && (to.Some? ==> forall r :: r in rs <==> Wanted(env, to.value, r))
  {
    if to.Some? {
      DesiredServersAre(env, to.value.servers);
      var ids := DesiredServers(env, to.value.servers).value;
      OfServersAre(ids);
      if to.value.selector != "" { SelectorFirst(to.value.selector, OfServers(ids)); }
      forall r ensures r in DesiredApply(env, to).value <==> Wanted(env, to.value, r) {}
    }
  }

  /** They cannot be told exactly if a named server does not exist. */
  lemma ApplyFailsIff(env: Servers, to: Option<ApplyTo>)
    ensures DesiredApply(env, to).Failed? <==>
              to.Some? && exists ref :: ref in to.value.servers && ref != "" && ref !in env
  {
    if to.Some? { DesiredServersAre(env, to.value.servers); }
  }

  ghost predicate Wanted(env: Servers, to: ApplyTo, r: Resource) {
    || (to.selector != "" && r == Resource("label_selector", 0, to.selector))
    || (r.server > 0 && r == Resource("server", r.server, "") && Referenced(env, to.servers, r.server))
  }

  ghost predicate Referenced(env: Servers, refs: seq<string>, id: int) {
    exists ref :: ref in refs && ref != "" && ref in env && env[ref] == id
  }

  // ---------- a firewall in sync ----------

  type Labels = Option<map<string, string>>

  datatype FW = FW(name: string, labels: Labels, rules: seq<Rules.Rule>, applied: seq<Resource>)

  /** No labels at all are as good as an empty map. */
  function Norm(labels: Labels): map<string, string> { if labels.Some? then labels.value else map[] }

  /** The same labels, where none at all and an empty map are the same. */
  predicate SameLabels(a: Labels, b: Labels) { a == b || (a in {None, Some(map[])} && b in {None, Some(map[])}) }

  lemma NormIs(a: Labels, b: Labels)
    ensures Norm(a) == Norm(b) <==> SameLabels(a, b)
  {
  }

  ghost predicate InSync(fw: FW, labels: Labels, rules: seq<Rules.Rule>, apply: seq<Resource>) {
    SameLabels(fw.labels, labels) && Rules.Match(rules, fw.rules) && KeySet(fw.applied) == KeySet(apply)
  }
}
