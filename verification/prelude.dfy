/** Shared vocabulary: optional values, what the network does to one API call, and a sort
    (the library sort every controller calls on its slices). */
module Prelude {

  datatype Option<+T> = None | Some(value: T)

  /** What happens to one API call.  `Refused`: an error comes back and nothing happened.
      `Lost`: the request took effect but the caller sees an error.  A crash of the operator
      at a call leaves the cloud as `Refused` or `Lost` does; what a crash adds, a status
      that is never stored, is a separate choice of each run. */
  datatype Fate = Works | Refused | Lost

  /** What a call meets: resources that others delete just before it, and its fate. */
  datatype Moment = Moment(gone: set<nat>, fate: Fate)

  /** Why a call, or the pass that made it, returned an error. */
  datatype Fault =
    | Transport
    | NotFound
    | AlreadyExists
    | MustBeOff
    | AlreadyAttached
    | StillAttached
    | WouldShrink
    | Unresolved
    | Disappeared
    | UnsupportedState
    | StatusWrite

  datatype Reply<+T> = Got(value: T) | Failed(fault: Fault)

  function Answer<T>(fate: Fate, value: T): Reply<T> {
    if fate.Works? then Got(value) else Failed(Transport)
  }

  // ---------- sorting ----------

  ghost predicate TotalOrder<T(!new)>(le: (T, T) -> bool) {
    && (forall a, b :: le(a, b) || le(b, a))
    && (forall a, b :: le(a, b) && le(b, a) ==> a == b)
    && (forall a, b, c :: le(a, b) && le(b, c) ==> le(a, c))
  }

  ghost predicate Ordered<T(!new)>(le: (T, T) -> bool, xs: seq<T>) {
    forall i, j :: 0 <= i < j < |xs| ==> le(xs[i], xs[j])
  }

  ghost predicate Distinct<T>(xs: seq<T>) {
    forall i, j :: 0 <= i < j < |xs| ==> xs[i] != xs[j]
  }

  function InsertBy<T>(le: (T, T) -> bool, x: T, xs: seq<T>): seq<T> {
    if |xs| == 0 || le(x, xs[0]) then [x] + xs
    else [xs[0]] + InsertBy(le, x, xs[1..])
  }

  function SortBy<T>(le: (T, T) -> bool, xs: seq<T>): seq<T> {
    if |xs| == 0 then [] else InsertBy(le, xs[0], SortBy(le, xs[1..]))
  }

  lemma {:induction false} InsertPermutes<T>(le: (T, T) -> bool, x: T, xs: seq<T>)
    ensures multiset(InsertBy(le, x, xs)) == multiset(xs) + multiset{x}
  {
    if |xs| == 0 || le(x, xs[0]) {
    } else {
      InsertPermutes(le, x, xs[1..]);
      assert xs == [xs[0]] + xs[1..];
    }
  }

  lemma {:induction false} InsertOrders<T(!new)>(le: (T, T) -> bool, x: T, xs: seq<T>)
    requires TotalOrder(le) && Ordered(le, xs)
    ensures Ordered(le, InsertBy(le, x, xs))
  {
    if |xs| == 0 || le(x, xs[0]) {
    } else {
      InsertOrders(le, x, xs[1..]);
      InsertPermutes(le, x, xs[1..]);
      var rest := InsertBy(le, x, xs[1..]);
      forall j | 0 <= j < |rest| ensures le(xs[0], rest[j]) {
        assert rest[j] in multiset(rest);
        if rest[j] != x {
          assert rest[j] in multiset(xs[1..]);
          assert rest[j] in xs[1..];
        }
      }
    }
  }

  lemma {:induction false} SortPermutes<T>(le: (T, T) -> bool, xs: seq<T>)
    ensures multiset(SortBy(le, xs)) == multiset(xs)
  {
    if |xs| > 0 {
      var rest := xs[1..];
      assert xs == [xs[0]] + rest;
      SortPermutes(le, rest);
      InsertPermutes(le, xs[0], SortBy(le, rest));
      assert multiset(xs) == multiset{xs[0]} + multiset(rest);
    }
  }

  lemma {:induction false} SortOrders<T(!new)>(le: (T, T) -> bool, xs: seq<T>)
    requires TotalOrder(le)
    ensures Ordered(le, SortBy(le, xs))
  {
    if |xs| > 0 {
      SortOrders(le, xs[1..]);
      InsertOrders(le, xs[0], SortBy(le, xs[1..]));
    }
  }

  /** An ordered list is determined by its elements. */
  lemma {:induction false} OrderedUnique<T(!new)>(le: (T, T) -> bool, xs: seq<T>, ys: seq<T>)
    requires TotalOrder(le) && Ordered(le, xs) && Ordered(le, ys)
    requires multiset(xs) == multiset(ys)
    ensures xs == ys
  {
    SameLength(xs, ys);
    if |xs| > 0 {
      SameFirst(le, xs, ys);
      SameRest(xs, ys);
      OrderedUnique(le, xs[1..], ys[1..]);
      assert xs == [xs[0]] + xs[1..] && ys == [ys[0]] + ys[1..];
    }
  }

  lemma SameFirst<T(!new)>(le: (T, T) -> bool, xs: seq<T>, ys: seq<T>)
    requires TotalOrder(le) && Ordered(le, xs) && Ordered(le, ys)
    requires multiset(xs) == multiset(ys) && |xs| > 0 && |ys| > 0
    ensures xs[0] == ys[0]
  {
    assert xs[0] in multiset(ys) && ys[0] in multiset(xs);
    assert xs[0] in ys && ys[0] in xs;
    assert le(xs[0], ys[0]) && le(ys[0], xs[0]);
  }

  lemma SameRest<T>(xs: seq<T>, ys: seq<T>)
    requires multiset(xs) == multiset(ys) && |xs| > 0 && |ys| > 0 && xs[0] == ys[0]
    ensures multiset(xs[1..]) == multiset(ys[1..])
  {
    assert xs == [xs[0]] + xs[1..] && ys == [ys[0]] + ys[1..];
    assert multiset(xs[1..]) == multiset(xs) - multiset{xs[0]};
    assert multiset(ys[1..]) == multiset(ys) - multiset{ys[0]};
  }

  lemma SameLength<T>(xs: seq<T>, ys: seq<T>)
    requires multiset(xs) == multiset(ys)
    ensures |xs| == |ys|
  {
    assert |multiset(xs)| == |xs| && |multiset(ys)| == |ys|;
  }

  /** Sorting identifies exactly the lists with equal elements. */
  lemma SortCanonical<T(!new)>(le: (T, T) -> bool, xs: seq<T>, ys: seq<T>)
    requires TotalOrder(le)
    ensures SortBy(le, xs) == SortBy(le, ys) <==> multiset(xs) == multiset(ys)
  {
    SortPermutes(le, xs);
    SortPermutes(le, ys);
    SortOrders(le, xs);
    SortOrders(le, ys);
    if multiset(xs) == multiset(ys) {
      OrderedUnique(le, SortBy(le, xs), SortBy(le, ys));
    }
  }

  lemma SortMembers<T(!new)>(le: (T, T) -> bool, xs: seq<T>)
    ensures forall x :: x in SortBy(le, xs) <==> x in xs
  {
    SortPermutes(le, xs);
    var ys := SortBy(le, xs);
    forall x ensures x in ys <==> x in xs {
      assert x in ys <==> x in multiset(ys);
      assert x in xs <==> x in multiset(xs);
    }
  }

  lemma {:induction false} DistinctCounts<T>(xs: seq<T>, x: T)
    requires Distinct(xs)
    ensures multiset(xs)[x] <= 1
  {
    if |xs| > 0 {
      var t := xs[1..];
      assert xs == [xs[0]] + t;
      assert Distinct(t) by { assert forall i :: 0 <= i < |t| ==> t[i] == xs[i + 1]; }
      DistinctCounts(t, x);
      if x == xs[0] { assert x !in t; assert multiset(t)[x] == 0; }
    }
  }

  lemma {:induction false} CountsDistinct<T(!new)>(xs: seq<T>)
    requires forall x :: multiset(xs)[x] <= 1
    ensures Distinct(xs)
  {
    if |xs| > 0 {
      var h, t := xs[0], xs[1..];
      assert xs == [h] + t;
      assert multiset(xs) == multiset{h} + multiset(t);
      forall x ensures multiset(t)[x] <= 1 { assert multiset(xs)[x] <= 1; }
      CountsDistinct(t);
      assert multiset(xs)[h] <= 1;
      assert h !in t;
      forall i, j | 0 <= i < j < |xs| ensures xs[i] != xs[j] {
        assert xs[j] == t[j - 1];
        if i == 0 { assert t[j - 1] in t; } else { assert xs[i] == t[i - 1]; }
      }
    }
  }

  lemma SortKeepsDistinct<T(!new)>(le: (T, T) -> bool, xs: seq<T>)
    requires Distinct(xs)
    ensures Distinct(SortBy(le, xs))
  {
    SortPermutes(le, xs);
    forall x ensures multiset(SortBy(le, xs))[x] <= 1 { DistinctCounts(xs, x); }
    CountsDistinct(SortBy(le, xs));
  }

  predicate LeNat(a: nat, b: nat) { a <= b }

  function Elements<T(==)>(xs: seq<T>): set<T> { set x | x in xs }

  // ---------- resources by ID ----------

  /** Only the resource `id` may be new or have changed; others may be gone. */
  predicate Others<V(==)>(was: map<nat, V>, now: map<nat, V>, id: nat) {
    forall j :: j in now && j != id ==> j in was && now[j] == was[j]
  }

  /** `v` is the resource as it is in the cloud, if it is still there. */
  ghost predicate Seen<V>(rows: map<nat, V>, id: nat, v: V) { id in rows ==> rows[id] == v }

  /** From call `clock` on every call is answered and nobody interferes. */
  ghost predicate CalmFrom(moments: nat -> Moment, clock: nat) {
    forall n :: clock <= n ==> moments(n) == Moment({}, Works)
  }

  // ---------- the in-place filter ----------

  /** `xs` without any occurrence of `x`, order kept. */
  function Without<T(==,!new)>(xs: seq<T>, x: T): (r: seq<T>)
    ensures forall y :: y in r <==> y in xs && y != x
  {
    if |xs| == 0 then []
    else if xs[|xs| - 1] == x then Without(xs[..|xs| - 1], x)
    else Without(xs[..|xs| - 1], x) + [xs[|xs| - 1]]
  }

  lemma {:induction false} WithoutStaysOrdered<T(!new)>(le: (T, T) -> bool, xs: seq<T>, x: T)
    requires Ordered(le, xs)
    ensures Ordered(le, Without(xs, x))
  {
    if |xs| > 0 {
      var front, last := xs[..|xs| - 1], xs[|xs| - 1];
      WithoutStaysOrdered(le, front, x);
      forall y | y in front ensures le(y, last) {}
    }
  }

  /** It keeps every other element, in order and as often as it was there. */
  lemma {:induction false} WithoutSplits<T(!new)>(xs: seq<T>, ys: seq<T>, x: T)
    ensures Without(xs + ys, x) == Without(xs, x) + Without(ys, x)
    ensures |xs| == 1 ==> Without(xs, x) == if xs[0] == x then [] else xs
    decreases |ys|
  {
    if |ys| == 0 {
      assert xs + ys == xs;
    } else {
      var n := |ys| - 1;
      assert (xs + ys)[..|xs| + n] == xs + ys[..n];
      WithoutSplits(xs, ys[..n], x);
    }
    if |xs| == 1 { assert xs[..0] == []; }
  }

  lemma {:induction false} WithoutKeepsDistinct<T(!new)>(xs: seq<T>, x: T)
    requires Distinct(xs)
    ensures Distinct(Without(xs, x))
  {
    if |xs| > 0 {
      var front, last := xs[..|xs| - 1], xs[|xs| - 1];
      WithoutKeepsDistinct(front, x);
      assert last !in front;
    }
  }
}
