/** Firewall rules: one canonical string per rule, and a comparison that counts them
    (internal/controller/hcloudfirewall_controller.go:197-277, internal/hcloud/fake_client.go:584-613). */
module FirewallRules {
  import opened Prelude
  import opened Texts

  datatype Rule = Rule(
    direction: string, protocol: string, port: Option<string>, description: Option<string>,
    sources: seq<string>, destinations: seq<string>)

  // ---------- canonical rules ----------

  function Text(s: Option<string>): string { if s.Some? then s.value else "" }

  function List(ips: seq<string>): string { Join(SortBy(LeText, ips), ',') }

  function Fields(r: Rule): seq<string> {
    [r.direction, r.protocol, Text(r.port), Text(r.description), List(r.sources), List(r.destinations)]
  }

  function Canonical(r: Rule): string { Join(Fields(r), '\0') }

  /** No text of the rule holds a NUL, and every address is non-empty and free of commas. */
  ghost predicate WellFormed(r: Rule) {
    && '\0' !in r.direction && '\0' !in r.protocol && '\0' !in Text(r.port) && '\0' !in Text(r.description)
    && Addresses(r.sources) && Addresses(r.destinations)
  }

  ghost predicate Addresses(ips: seq<string>) {
    forall ip :: ip in ips ==> ip != "" && ',' !in ip && '\0' !in ip
  }

  /** An unset text is as good as an empty one, and every other text is itself. */
  predicate SameText(a: Option<string>, b: Option<string>) {
    a == b || (a in {None, Some("")} && b in {None, Some("")})
  }

  /** The rules say the same: an unset port or description is as good as an empty one, and
      the order of addresses does not matter. */
  ghost predicate Same(a: Rule, b: Rule) {
    && a.direction == b.direction && a.protocol == b.protocol
    && SameText(a.port, b.port) && SameText(a.description, b.description)
    && multiset(a.sources) == multiset(b.sources) && multiset(a.destinations) == multiset(b.destinations)
  }

  lemma ListIff(xs: seq<string>, ys: seq<string>)
    requires Addresses(xs) && Addresses(ys)
    ensures List(xs) == List(ys) <==> multiset(xs) == multiset(ys)
    ensures '\0' !in List(xs)
  {
    LeTextOrders();
    SortMembers(LeText, xs);
    SortMembers(LeText, ys);
    SortCanonical(LeText, xs, ys);
    var s, t := SortBy(LeText, xs), SortBy(LeText, ys);
    assert Free(s, ',') && Free(t, ',') && Free(s, '\0');
    JoinFree(s, ',', '\0');
    if List(xs) == List(ys) && |s| > 0 && |t| > 0 { JoinInjective(s, t, ','); }
    if |s| > 0 { JoinNonEmpty(s, ','); }
    if |t| > 0 { JoinNonEmpty(t, ','); }
  }

  /** The canonical string decides whether two rules say the same. */
  lemma CanonicalIff(a: Rule, b: Rule)
    requires WellFormed(a) && WellFormed(b)
    ensures Canonical(a) == Canonical(b) <==> Same(a, b)
  {
    ListIff(a.sources, b.sources);
    ListIff(b.sources, a.sources);
    ListIff(a.destinations, b.destinations);
    ListIff(b.destinations, a.destinations);
    if Canonical(a) == Canonical(b) {
      var f, g := Fields(a), Fields(b);
      JoinInjective(f, g, '\0');
      assert f[0] == g[0] && f[1] == g[1] && f[2] == g[2] && f[3] == g[3] && f[4] == g[4] && f[5] == g[5];
    }
  }

  /** Each condition is needed: an empty address looks like none, a comma like two addresses,
      and a NUL moves text from one field to the next. */
  lemma EmptyAddressCollides()
    ensures var none, one := Rule("in", "tcp", None, None, [], []), Rule("in", "tcp", None, None, [""], []);
            Canonical(none) == Canonical(one) && !Same(none, one)
  {
    assert List([""]) == "" == List([]);
    assert |multiset([""])| == 1;
  }

  lemma CommaCollides()
    ensures var two := Rule("in", "tcp", None, None, ["a", "b"], []);
            var joined := Rule("in", "tcp", None, None, ["a,b"], []);
            Canonical(two) == Canonical(joined) && !Same(two, joined)
  {
    var xs, ys := ["a", "b"], ["a,b"];
    assert xs[1..] == ["b"] && SortBy(LeText, xs[1..]) == ["b"] && LeText("a", "b");
    assert SortBy(LeText, xs) == xs && SortBy(LeText, ys) == ys;
    assert List(xs) == "a,b" == List(ys);
    assert |multiset(xs)| == 2 && |multiset(ys)| == 1;
  }

  lemma NulCollides()
    ensures var p, q := Rule("a\0b", "c", None, None, [], []), Rule("a", "b\0c", None, None, [], []);
            Canonical(p) == Canonical(q) && !Same(p, q)
  {
    var p, q := Rule("a\0b", "c", None, None, [], []), Rule("a", "b\0c", None, None, [], []);
    var rest := Fields(p)[2..];
    assert rest == Fields(q)[2..];
    assert Fields(p)[1..][1..] == rest && Fields(q)[1..][1..] == rest;
    assert Canonical(p) == "a\0b" + "\0" + ("c" + "\0" + Join(rest, '\0'));
    assert Canonical(q) == "a" + "\0" + ("b\0c" + "\0" + Join(rest, '\0'));
    assert "a\0b" + "\0" + ("c" + "\0" + Join(rest, '\0')) == "a" + "\0" + ("b\0c" + "\0" + Join(rest, '\0'));
    assert |p.direction| != |q.direction|;
  }

  // ---------- the comparison ----------

  function Keys(rules: seq<Rule>): (ks: seq<string>)
    ensures |ks| == |rules| && forall i :: 0 <= i < |rules| ==> ks[i] == Canonical(rules[i])
  {
    seq(|rules|, i requires 0 <= i < |rules| => Canonical(rules[i]))
  }

  ghost predicate Match(desired: seq<Rule>, observed: seq<Rule>) {
    multiset(Keys(desired)) == multiset(Keys(observed))
  }

  /** The observed rules can be reordered so that they say the same as the desired ones, one by
      one. */
  ghost predicate Permutes(desired: seq<Rule>, observed: seq<Rule>) {
    exists paired :: Paired(desired, observed, paired)
  }

  ghost predicate Paired(desired: seq<Rule>, observed: seq<Rule>, paired: seq<Rule>) {
    && multiset(paired) == multiset(observed) && |paired| == |desired|
    && forall i :: 0 <= i < |desired| ==> Same(desired[i], paired[i])
  }

  ghost predicate AllWellFormed(rules: seq<Rule>) { forall r :: r in rules ==> WellFormed(r) }

  function Count(counts: map<string, int>, k: string): int { if k in counts then counts[k] else 0 }

  ghost predicate Tally(counts: map<string, int>, plus: multiset<string>, minus: multiset<string>) {
    forall k :: Count(counts, k) + minus[k] == plus[k]
  }

  method CountUp(rules: seq<Rule>) returns (counts: map<string, int>)
    ensures Tally(counts, multiset(Keys(rules)), multiset{})
  {
    ghost var keys := Keys(rules);
    counts := map[];
    for i := 0 to |rules|
      invariant Tally(counts, multiset(keys[..i]), multiset{})
    {
      assert keys[..i + 1] == keys[..i] + [keys[i]];
      var k := Canonical(rules[i]);
      counts := counts[k := Count(counts, k) + 1];
    }
    assert keys[..|rules|] == keys;
  }

  method CountDown(before: map<string, int>, rules: seq<Rule>, ghost plus: multiset<string>)
    returns (enough: bool, counts: map<string, int>)
    requires Tally(before, plus, multiset{})
    ensures enough ==> Tally(counts, plus, multiset(Keys(rules)))
    ensures !enough ==> multiset(Keys(rules)) != plus
  {
    ghost var keys := Keys(rules);
    counts := before;
    for i := 0 to |rules|
      invariant Tally(counts, plus, multiset(keys[..i]))
    {
      var k := Canonical(rules[i]);
      assert keys[..i + 1] == keys[..i] + [k];
      TallyDown(counts, plus, multiset(keys[..i]), k);
      counts := counts[k := Count(counts, k) - 1];
      if counts[k] < 0 {
        Overdrawn(counts, plus, keys, i + 1, k);
        return false, counts;
      }
    }
    assert keys[..|rules|] == keys;
    enough := true;
  }

  lemma TallyDown(counts: map<string, int>, plus: multiset<string>, minus: multiset<string>, k: string)
    requires Tally(counts, plus, minus)
    ensures Tally(counts[k := Count(counts, k) - 1], plus, minus + multiset{k})
  {
  }

  lemma Overdrawn(counts: map<string, int>, plus: multiset<string>, keys: seq<string>, n: nat, k: string)
    requires n <= |keys| && Tally(counts, plus, multiset(keys[..n])) && Count(counts, k) < 0
    ensures multiset(keys) != plus
  {
    assert keys == keys[..n] + keys[n..];
    assert multiset(keys)[k] > plus[k];
  }

  method AllZero(counts: map<string, int>) returns (zero: bool)
    ensures zero <==> forall k :: Count(counts, k) == 0
  {
    var left := counts.Keys;
    while left != {}
      invariant left <= counts.Keys && forall k :: k in counts && k !in left ==> counts[k] == 0
      decreases |left|
    {
      var k :| k in left;
      if counts[k] != 0 {
        assert Count(counts, k) != 0;
        return false;
      }
      left := left - {k};
    }
    zero := true;
  }

  method RulesMatch(desired: seq<Rule>, observed: seq<Rule>) returns (same: bool)
    ensures same <==> Match(desired, observed)
  {
    ghost var want, have := multiset(Keys(desired)), multiset(Keys(observed));
    if |desired| != |observed| {
      assert |want| == |desired| && |have| == |observed|;
      return false;
    }
    var counts := CountUp(desired);
    same, counts := CountDown(counts, observed, want);
    if same {
      same := AllZero(counts);
      ZeroIff(counts, want, have);
    }
  }

  lemma ZeroIff(counts: map<string, int>, plus: multiset<string>, minus: multiset<string>)
    requires Tally(counts, plus, minus)
    ensures (forall k :: Count(counts, k) == 0) <==> plus == minus
  {
    if forall k :: Count(counts, k) == 0 {
      forall k ensures plus[k] == minus[k] { assert Count(counts, k) == 0; }
    }
  }

  // ---------- what a match means ----------

  /** The list without its j-th element. */
  function Out<T>(xs: seq<T>, j: nat): (r: seq<T>)
    requires j < |xs|
    ensures |r| == |xs| - 1
  {
    xs[..j] + xs[j + 1..]
  }

  lemma OutLoses<T>(xs: seq<T>, j: nat)
    requires j < |xs|
    ensures multiset(xs) == multiset(Out(xs, j)) + multiset{xs[j]}
  {
    assert xs == xs[..j] + [xs[j]] + xs[j + 1..];
  }

  lemma KeysOut(rules: seq<Rule>, j: nat)
    requires j < |rules|
    ensures multiset(Keys(rules)) == multiset(Keys(Out(rules, j))) + multiset{Canonical(rules[j])}
  {
    assert Keys(Out(rules, j)) == Out(Keys(rules), j);
    OutLoses(Keys(rules), j);
  }

  /** Reordering rules reorders their keys. */
  lemma {:induction false} KeysPermute(a: seq<Rule>, b: seq<Rule>)
    requires multiset(a) == multiset(b)
    ensures multiset(Keys(a)) == multiset(Keys(b))
    decreases |a|
  {
    SameLength(a, b);
    if |a| > 0 {
      assert a[0] in multiset(b);
      var j :| 0 <= j < |b| && b[j] == a[0];
      OutLoses(a, 0);
      OutLoses(b, j);
      assert multiset(Out(a, 0)) == multiset(a) - multiset{a[0]} == multiset(Out(b, j));
      KeysPermute(Out(a, 0), Out(b, j));
      KeysOut(a, 0);
      KeysOut(b, j);
    }
  }

  lemma MatchOut(desired: seq<Rule>, observed: seq<Rule>) returns (j: nat)
    requires Match(desired, observed) && |desired| > 0
    ensures j < |observed| && Canonical(observed[j]) == Canonical(desired[0])
    ensures Match(Out(desired, 0), Out(observed, j))
  {
    var key := Canonical(desired[0]);
    assert Keys(desired)[0] == key && key in multiset(Keys(desired)) && key in multiset(Keys(observed));
    j :| 0 <= j < |observed| && Keys(observed)[j] == key;
    KeysOut(desired, 0);
    KeysOut(observed, j);
    var a, b := multiset(Keys(Out(desired, 0))), multiset(Keys(Out(observed, j)));
    assert a == (a + multiset{key}) - multiset{key} && b == (b + multiset{key}) - multiset{key};
  }

  lemma PairOut(desired: seq<Rule>, observed: seq<Rule>, j: nat, paired: seq<Rule>)
    requires |desired| > 0 && j < |observed| && Same(desired[0], observed[j])
    requires Paired(Out(desired, 0), Out(observed, j), paired)
    ensures Paired(desired, observed, [observed[j]] + paired)
  {
    var all := [observed[j]] + paired;
    OutLoses(observed, j);
    forall i | 0 <= i < |desired| ensures Same(desired[i], all[i]) {
      if i > 0 { assert desired[i] == Out(desired, 0)[i - 1] && all[i] == paired[i - 1]; }
    }
  }

  lemma WellFormedOut(rules: seq<Rule>, j: nat)
    requires AllWellFormed(rules) && j < |rules|
    ensures AllWellFormed(Out(rules, j)) && WellFormed(rules[j])
  {
    forall r | r in Out(rules, j) ensures r in rules {}
  }

  lemma {:induction false} MatchPairs(desired: seq<Rule>, observed: seq<Rule>) returns (paired: seq<Rule>)
    requires AllWellFormed(desired) && AllWellFormed(observed) && Match(desired, observed)
    ensures Paired(desired, observed, paired)
    decreases |desired|
  {
    SameLength(Keys(desired), Keys(observed));
    if |desired| == 0 {
      paired := observed;
    } else {
      var j := MatchOut(desired, observed);
      WellFormedOut(desired, 0);
      WellFormedOut(observed, j);
      CanonicalIff(desired[0], observed[j]);
      var rest := MatchPairs(Out(desired, 0), Out(observed, j));
      PairOut(desired, observed, j, rest);
      paired := [observed[j]] + rest;
    }
  }

  /** Rules that say the same, in any order and whatever texts they hold, are never taken for
      different ones. */
  lemma PermutationMatches(desired: seq<Rule>, observed: seq<Rule>)
    requires Permutes(desired, observed)
    ensures Match(desired, observed)
  {
    var paired :| Paired(desired, observed, paired);
    KeysPermute(paired, observed);
    forall i | 0 <= i < |desired| ensures Keys(desired)[i] == Keys(paired)[i] {
      SameCanonical(desired[i], paired[i]);
    }
    assert Keys(desired) == Keys(paired);
  }

  lemma SameCanonical(a: Rule, b: Rule)
    requires Same(a, b)
    ensures Canonical(a) == Canonical(b)
  {
    LeTextOrders();
    SortCanonical(LeText, a.sources, b.sources);
    SortCanonical(LeText, a.destinations, b.destinations);
  }

  /** Rules match exactly if the observed ones are a permutation of the desired ones. */
  lemma MatchIffPermutation(desired: seq<Rule>, observed: seq<Rule>)
    requires AllWellFormed(desired) && AllWellFormed(observed)
    ensures Match(desired, observed) <==> Permutes(desired, observed)
  {
    if Match(desired, observed) { var paired := MatchPairs(desired, observed); }
    if Permutes(desired, observed) { PermutationMatches(desired, observed); }
  }

  // ---------- rules on their way to the cloud ----------

  function Normal(r: Rule): Rule {
    r.(sources := SortBy(LeText, r.sources), destinations := SortBy(LeText, r.destinations))
  }

  /** Only the order of the addresses changes. */
  lemma NormalIs(r: Rule)
    ensures var n := Normal(r);
            && n == r.(sources := n.sources, destinations := n.destinations)
            && multiset(n.sources) == multiset(r.sources) && Ordered(LeText, n.sources)
            && multiset(n.destinations) == multiset(r.destinations) && Ordered(LeText, n.destinations)
  {
    LeTextOrders();
    SortPermutes(LeText, r.sources);
    SortPermutes(LeText, r.destinations);
    SortOrders(LeText, r.sources);
    SortOrders(LeText, r.destinations);
  }

  /** What both the reconciler and the cloud make of a list of rules. */
  function Normals(rules: seq<Rule>): (ns: seq<Rule>)
    ensures |ns| == |rules| && forall i :: 0 <= i < |rules| ==> ns[i] == Normal(rules[i])
  {
    seq(|rules|, i requires 0 <= i < |rules| => Normal(rules[i]))
  }

  method CloneRules(rules: seq<Rule>) returns (out: seq<Rule>)
    ensures out == Normals(rules)
  {
    out := [];
    for i := 0 to |rules|
      invariant out == Normals(rules)[..i]
    {
      out := out + [Normal(rules[i])];
    }
  }

  /** Rules that were just set match, whatever texts they hold. */
  lemma StoredMatch(rules: seq<Rule>)
    ensures Match(rules, Normals(rules)) && Normals(Normals(rules)) == Normals(rules)
  {
    LeTextOrders();
    forall r: Rule ensures Canonical(Normal(r)) == Canonical(r) && Normal(Normal(r)) == Normal(r) {
      SortTwice(r.sources);
      SortTwice(r.destinations);
    }
    assert Keys(Normals(rules)) == Keys(rules);
  }

  lemma SortTwice(xs: seq<string>)
    requires TotalOrder(LeText)
    ensures SortBy(LeText, SortBy(LeText, xs)) == SortBy(LeText, xs)
  {
    SortPermutes(LeText, xs);
    SortCanonical(LeText, SortBy(LeText, xs), xs);
  }
}
