/** Writing a status against optimistic concurrency: the base's retry loop
    (internal/reconcile/base.go:172-185) and the server controller's own
    (internal/controller/hcloudserver_controller.go:500-512), with other writers acting before
    every call and any call failing or losing its answer. */
module StatusWrite {
  import opened Prelude

  datatype Object<S, T> = Object(version: nat, spec: S, finalizers: set<string>, status: T)

  /** What another writer does; every write moves the version. */
  datatype Write<S, T> = SetSpec(spec: S) | SetFinalizers(finalizers: set<string>) | SetStatus(status: T) | Drop

  /** `Unanswered`: an error that is not a conflict, which ends the loop. */
  datatype Verdict = Landed | Conflicted | Missing | Unanswered

  function Apply<S, T>(o: Option<Object<S, T>>, w: Write<S, T>): Option<Object<S, T>> {
    if o.None? then None
    else
      var v := o.value.(version := o.value.version + 1);
      match w
      case SetSpec(s) => Some(v.(spec := s))
      case SetFinalizers(f) => Some(v.(finalizers := f))
      case SetStatus(t) => Some(v.(status := t))
      case Drop => None
  }

  function ApplyAll<S, T>(o: Option<Object<S, T>>, ws: seq<Write<S, T>>): Option<Object<S, T>>
    decreases |ws|
  {
    if |ws| == 0 then o else ApplyAll(Apply(o, ws[0]), ws[1..])
  }

  /** The writes of others before call `t` of a procedure, and how that call fares. */
  type Others<S, T> = nat -> seq<Write<S, T>>

  type Fates = nat -> Fate

  datatype Try<S, T> = Try(store: Option<Object<S, T>>, verdict: Verdict, attempts: nat)

  /** At most `left` attempts, of which this is number `k`; attempt `k` makes the calls `2k`
      (the update) and, after a conflict, `2k + 1` (the get that refreshes the version). */
  function Attempts<S, T>(
      store0: Option<Object<S, T>>, version: nat, status: T, others: Others<S, T>, fates: Fates,
      k: nat, left: nat): Try<S, T>
    decreases left
  {
    if left == 0 then Try(store0, Conflicted, k)
    else
      var u := Updated(ApplyAll(store0, others(2 * k)), version, status, fates(2 * k));
      if u.verdict != Conflicted then Try(u.store, u.verdict, k + 1)
      else
        var seen := ApplyAll(u.store, others(2 * k + 1));
        if !fates(2 * k + 1).Works? then Try(seen, Unanswered, k + 1)
        else if seen.None? then Try(seen, Missing, k + 1)
        else Attempts(seen, seen.value.version, status, others, fates, k + 1, left - 1)
  }

  /** The status subresource: refused if the version has moved on. */
  function Updated<S, T>(store: Option<Object<S, T>>, version: nat, status: T, fate: Fate): Try<S, T> {
    if fate.Refused? then Try(store, Unanswered, 1)
    else
      var fits := store.Some? && store.value.version == version;
      var after := if fits then Some(store.value.(status := status, version := version + 1)) else store;
      var answer := if store.None? then Missing else if fits then Landed else Conflicted;
      Try(after, if fate.Works? then answer else Unanswered, 1)
  }

  // ---------- when the write lands ----------

  ghost predicate NoDrop<S(!new), T(!new)>(others: Others<S, T>) {
    forall t, i :: 0 <= i < |others(t)| ==> !others(t)[i].Drop?
  }

  lemma {:induction false} ApplyAllMoves<S, T>(o: Option<Object<S, T>>, ws: seq<Write<S, T>>)
    requires o.Some? && forall i :: 0 <= i < |ws| ==> !ws[i].Drop?
    ensures ApplyAll(o, ws).Some? && ApplyAll(o, ws).value.version == o.value.version + |ws|
    decreases |ws|
  {
    if |ws| > 0 {
      ApplyAllMoves(Apply(o, ws[0]), ws[1..]);
    }
  }

  /** The object is gone exactly if it was, or somebody drops it; a write then finds it missing. */
  lemma {:induction false} GoneIff<S, T>(o: Option<Object<S, T>>, ws: seq<Write<S, T>>, version: nat, status: T)
    ensures ApplyAll(o, ws).None? <==> o.None? || exists i :: 0 <= i < |ws| && ws[i].Drop?
    ensures ApplyAll(o, ws).None? ==> Updated(ApplyAll(o, ws), version, status, Works) == Try(None, Missing, 1)
    decreases |ws|
  {
    if |ws| > 0 {
      GoneIff(Apply(o, ws[0]), ws[1..], version, status);
      if exists i :: 0 <= i < |ws| && ws[i].Drop? {
        var i :| 0 <= i < |ws| && ws[i].Drop?;
        if i > 0 { assert ws[1..][i - 1].Drop?; }
      }
    }
  }

  /** What nobody writes stays. */
  lemma {:induction false} UnwrittenStays<S, T>(o: Option<Object<S, T>>, ws: seq<Write<S, T>>)
    requires o.Some? && forall i :: 0 <= i < |ws| ==> !ws[i].Drop?
    ensures var now := ApplyAll(o, ws);
            && now.Some?
            && ((forall i :: 0 <= i < |ws| ==> !ws[i].SetSpec?) ==> now.value.spec == o.value.spec)
            && ((forall i :: 0 <= i < |ws| ==> !ws[i].SetFinalizers?) ==> now.value.finalizers == o.value.finalizers)
            && ((forall i :: 0 <= i < |ws| ==> !ws[i].SetStatus?) ==> now.value.status == o.value.status)
    decreases |ws|
  {
    if |ws| > 0 { UnwrittenStays(Apply(o, ws[0]), ws[1..]); }
  }

  /** Of several writers of the same part the last counts. */
  lemma {:induction false} LastWriteWins<S, T>(o: Option<Object<S, T>>, ws: seq<Write<S, T>>, i: nat)
    requires o.Some? && i < |ws| && forall j :: 0 <= j < |ws| ==> !ws[j].Drop?
    ensures var now := ApplyAll(o, ws);
            && now.Some?
            && (ws[i].SetSpec? && (forall j :: i < j < |ws| ==> !ws[j].SetSpec?) ==> now.value.spec == ws[i].spec)
            && (ws[i].SetFinalizers? && (forall j :: i < j < |ws| ==> !ws[j].SetFinalizers?) ==>
                  now.value.finalizers == ws[i].finalizers)
            && (ws[i].SetStatus? && (forall j :: i < j < |ws| ==> !ws[j].SetStatus?) ==>
                  now.value.status == ws[i].status)
    decreases i
  {
    if i == 0 { UnwrittenStays(Apply(o, ws[0]), ws[1..]); } else { LastWriteWins(Apply(o, ws[0]), ws[1..], i - 1); }
  }

  /** Attempt `j` meets no write of others between the read of the version and the update. */
  predicate QuietAttempt<S, T>(others: Others<S, T>, current: bool, k: nat, j: nat) {
    |others(2 * j)| == 0 && (j == k ==> current)
  }

  /** Every call from attempt `k` to the update of attempt `j` is answered. */
  ghost predicate AnsweredTo(fates: Fates, k: nat, j: nat) {
    forall t :: 2 * k <= t <= 2 * j ==> fates(t).Works?
  }

  ghost predicate SomeQuiet<S, T>(others: Others<S, T>, fates: Fates, current: bool, k: nat, left: nat) {
    exists j :: k <= j < k + left && QuietAttempt(others, current, k, j) && AnsweredTo(fates, k, j)
  }

  lemma SkipFirst<S, T>(others: Others<S, T>, fates: Fates, k: nat, left: nat, current: bool)
    requires left > 0 && !QuietAttempt(others, current, k, k)
    requires fates(2 * k).Works? && fates(2 * k + 1).Works?
    ensures SomeQuiet(others, fates, current, k, left) <==> SomeQuiet(others, fates, true, k + 1, left - 1)
  {
    if SomeQuiet(others, fates, current, k, left) {
      var j :| k <= j < k + left && QuietAttempt(others, current, k, j) && AnsweredTo(fates, k, j);
      assert QuietAttempt(others, true, k + 1, j) && AnsweredTo(fates, k + 1, j);
    }
    if SomeQuiet(others, fates, true, k + 1, left - 1) {
      var j :| k + 1 <= j < k + left && QuietAttempt(others, true, k + 1, j) && AnsweredTo(fates, k + 1, j);
      assert QuietAttempt(others, current, k, j) && AnsweredTo(fates, k, j);
    }
  }

  /** Nothing is left of a quiet attempt when a call before its end is not answered. */
  lemma CutShort<S, T>(others: Others<S, T>, fates: Fates, k: nat, left: nat, current: bool)
    requires left > 0
    requires !fates(2 * k).Works? || (!QuietAttempt(others, current, k, k) && !fates(2 * k + 1).Works?)
    ensures !SomeQuiet(others, fates, current, k, left)
  {
  }

  /** The write lands exactly if one of the attempts allowed is left in peace and every call up
      to its end is answered; it is then the stored object, as others left it, with nothing but
      the status replaced. */
  lemma {:induction false} LandsIff<S(!new), T(!new)>(
      store: Option<Object<S, T>>, version: nat, status: T, others: Others<S, T>, fates: Fates, k: nat, left: nat)
    requires store.Some? && version <= store.value.version && NoDrop(others)
    ensures var r := Attempts(store, version, status, others, fates, k, left);
            && r.store.Some? && r.verdict != Missing
            && (r.verdict == Landed <==> SomeQuiet(others, fates, version == store.value.version, k, left))
            && (r.verdict == Landed ==> r.store.value.status == status)
    decreases left
  {
    if left > 0 {
      var current := version == store.value.version;
      ApplyAllMoves(store, others(2 * k));
      var s := ApplyAll(store, others(2 * k));
      assert s.value.version == version <==> QuietAttempt(others, current, k, k);
      if !fates(2 * k).Works? {
        CutShort(others, fates, k, left, current);
      } else if s.value.version == version {
        assert QuietAttempt(others, current, k, k) && AnsweredTo(fates, k, k);
      } else {
        ApplyAllMoves(s, others(2 * k + 1));
        var seen := ApplyAll(s, others(2 * k + 1));
        if !fates(2 * k + 1).Works? {
          CutShort(others, fates, k, left, current);
        } else {
          LandsIff(seen, seen.value.version, status, others, fates, k + 1, left - 1);
          SkipFirst(others, fates, k, left, current);
        }
      }
    }
  }

  /** The specification and the finalizers that end up stored are those the other writers put
      there: dropping the status, the run of the store is as if this writer had not existed. */
  ghost function History<S, T>(
      store: Option<Object<S, T>>, others: Others<S, T>, from: nat, calls: nat): Option<Object<S, T>>
    decreases calls
  {
    if calls == 0 then store else History(ApplyAll(store, others(from)), others, from + 1, calls - 1)
  }

  predicate SameBesidesStatus<S(==), T>(a: Object<S, T>, b: Object<S, T>) {
    a.spec == b.spec && a.finalizers == b.finalizers
  }

  lemma {:induction false} LandedKeepsTheRest<S, T>(
      store: Option<Object<S, T>>, version: nat, status: T, others: Others<S, T>, fates: Fates, k: nat, left: nat)
    requires Attempts(store, version, status, others, fates, k, left).verdict == Landed
    ensures var r := Attempts(store, version, status, others, fates, k, left);
            && r.store.Some? && r.attempts > k
            && var h := History(store, others, 2 * k, 2 * (r.attempts - k) - 1);
            && h.Some? && SameBesidesStatus(r.store.value, h.value)
            && r.store.value.status == status && r.store.value.version == h.value.version + 1
    decreases left
  {
    var r := Attempts(store, version, status, others, fates, k, left);
    var s := ApplyAll(store, others(2 * k));
    if s.value.version == version {
      assert History(store, others, 2 * k, 1) == History(s, others, 2 * k + 1, 0);
    } else {
      var seen := ApplyAll(s, others(2 * k + 1));
      LandedKeepsTheRest(seen, seen.value.version, status, others, fates, k + 1, left - 1);
      var n := 2 * (r.attempts - k) - 1;
      assert History(store, others, 2 * k, n) == History(s, others, 2 * k + 1, n - 1);
      assert History(s, others, 2 * k + 1, n - 1) == History(seen, others, 2 * k + 2, n - 2);
    }
  }

  /** The loop makes no more attempts than allowed, and at least one if any is; it ends in a
      conflict only once all of them are used up. */
  lemma {:induction false} AttemptsBounded<S, T>(
      store: Option<Object<S, T>>, version: nat, status: T, others: Others<S, T>, fates: Fates, k: nat, left: nat)
    ensures var r := Attempts(store, version, status, others, fates, k, left);
            && (if left == 0 then r.attempts == k else k < r.attempts <= k + left)
            && (r.verdict == Conflicted ==> r.attempts == k + left)
    decreases left
  {
    if left > 0 {
      var u := Updated(ApplyAll(store, others(2 * k)), version, status, fates(2 * k));
      var seen := ApplyAll(u.store, others(2 * k + 1));
      if seen.Some? { AttemptsBounded(seen, seen.value.version, status, others, fates, k + 1, left - 1); }
    }
  }

  // ---------- the server controller's own write ----------

  /** Each attempt reads the object (call `2k`) and updates what it read (call `2k + 1`). */
  function OwnAttempts<S, T>(
      store0: Option<Object<S, T>>, status: T, others: Others<S, T>, fates: Fates, k: nat, left: nat): Try<S, T>
    decreases left
  {
    if left == 0 then Try(store0, Conflicted, k)
    else
      var read := ApplyAll(store0, others(2 * k));
      if !fates(2 * k).Works? then Try(read, Unanswered, k + 1)
      else if read.None? then Try(read, Missing, k + 1)
      else
        var u := Updated(ApplyAll(read, others(2 * k + 1)), read.value.version, status, fates(2 * k + 1));
        if u.verdict != Conflicted then Try(u.store, u.verdict, k + 1)
        else OwnAttempts(u.store, status, others, fates, k + 1, left - 1)
  }

  /** Attempt `j` meets no write of others between its read and its update. */
  predicate OwnQuiet<S, T>(others: Others<S, T>, j: nat) { |others(2 * j + 1)| == 0 }

  /** Every call from attempt `k` to the update of attempt `j` is answered. */
  ghost predicate OwnAnsweredTo(fates: Fates, k: nat, j: nat) {
    forall t :: 2 * k <= t <= 2 * j + 1 ==> fates(t).Works?
  }

  ghost predicate SomeOwnQuiet<S, T>(others: Others<S, T>, fates: Fates, k: nat, left: nat) {
    exists j :: k <= j < k + left && OwnQuiet(others, j) && OwnAnsweredTo(fates, k, j)
  }

  lemma SkipFirstOwn<S, T>(others: Others<S, T>, fates: Fates, k: nat, left: nat)
    requires left > 0 && !OwnQuiet(others, k) && fates(2 * k).Works? && fates(2 * k + 1).Works?
    ensures SomeOwnQuiet(others, fates, k, left) <==> SomeOwnQuiet(others, fates, k + 1, left - 1)
  {
    if SomeOwnQuiet(others, fates, k, left) {
      var j :| k <= j < k + left && OwnQuiet(others, j) && OwnAnsweredTo(fates, k, j);
      assert OwnAnsweredTo(fates, k + 1, j);
    }
    if SomeOwnQuiet(others, fates, k + 1, left - 1) {
      var j :| k + 1 <= j < k + left && OwnQuiet(others, j) && OwnAnsweredTo(fates, k + 1, j);
      assert OwnAnsweredTo(fates, k, j);
    }
  }

  lemma CutShortOwn<S, T>(others: Others<S, T>, fates: Fates, k: nat, left: nat)
    requires !fates(2 * k).Works? || !fates(2 * k + 1).Works?
    ensures !SomeOwnQuiet(others, fates, k, left)
  {
  }

  /** The controller's own write lands exactly if one of the attempts allowed is left in peace
      from its read to its update and every call up to that is answered; a conflict is tried
      again.  It is then the stored object, as others left it, with only the status replaced. */
  lemma {:induction false} OwnLandsIff<S(!new), T(!new)>(
      store: Option<Object<S, T>>, status: T, others: Others<S, T>, fates: Fates, k: nat, left: nat)
    requires store.Some? && NoDrop(others)
    ensures var r := OwnAttempts(store, status, others, fates, k, left);
            && r.store.Some? && r.verdict != Missing
            && (r.verdict == Landed <==> SomeOwnQuiet(others, fates, k, left))
            && (r.verdict == Landed ==> r.store.value.status == status)
    decreases left
  {
    if left > 0 {
      ApplyAllMoves(store, others(2 * k));
      var read := ApplyAll(store, others(2 * k));
      ApplyAllMoves(read, others(2 * k + 1));
      var s := ApplyAll(read, others(2 * k + 1));
      if !fates(2 * k).Works? || !fates(2 * k + 1).Works? {
        CutShortOwn(others, fates, k, left);
      } else if s.value.version == read.value.version {
        assert OwnQuiet(others, k) && OwnAnsweredTo(fates, k, k);
      } else {
        OwnLandsIff(s, status, others, fates, k + 1, left - 1);
        SkipFirstOwn(others, fates, k, left);
      }
    }
  }

  lemma {:induction false} OwnLandedKeepsTheRest<S, T>(
      store: Option<Object<S, T>>, status: T, others: Others<S, T>, fates: Fates, k: nat, left: nat)
    requires OwnAttempts(store, status, others, fates, k, left).verdict == Landed
    ensures var r := OwnAttempts(store, status, others, fates, k, left);
            && r.store.Some? && r.attempts > k
            && var h := History(store, others, 2 * k, 2 * (r.attempts - k));
            && h.Some? && SameBesidesStatus(r.store.value, h.value)
            && r.store.value.status == status && r.store.value.version == h.value.version + 1
    decreases left
  {
    var r := OwnAttempts(store, status, others, fates, k, left);
    var read := ApplyAll(store, others(2 * k));
    var s := ApplyAll(read, others(2 * k + 1));
    if s.value.version == read.value.version {
      assert History(store, others, 2 * k, 2) == History(read, others, 2 * k + 1, 1);
      assert History(read, others, 2 * k + 1, 1) == History(s, others, 2 * k + 2, 0);
    } else {
      OwnLandedKeepsTheRest(s, status, others, fates, k + 1, left - 1);
      var n := 2 * (r.attempts - k);
      assert History(store, others, 2 * k, n) == History(read, others, 2 * k + 1, n - 1);
      assert History(read, others, 2 * k + 1, n - 1) == History(s, others, 2 * k + 2, n - 2);
    }
  }

  lemma {:induction false} OwnAttemptsBounded<S, T>(
      store: Option<Object<S, T>>, status: T, others: Others<S, T>, fates: Fates, k: nat, left: nat)
    ensures var r := OwnAttempts(store, status, others, fates, k, left);
            && (if left == 0 then r.attempts == k else k < r.attempts <= k + left)
            && (r.verdict == Conflicted ==> r.attempts == k + left)
    decreases left
  {
    if left > 0 {
      var read := ApplyAll(store, others(2 * k));
      if read.Some? {
        var u := Updated(ApplyAll(read, others(2 * k + 1)), read.value.version, status, fates(2 * k + 1));
        OwnAttemptsBounded(u.store, status, others, fates, k + 1, left - 1);
      }
    }
  }

  /** An unanswered write may or may not have happened, but never anything else: a refused one
      leaves the object alone, a lost one that fits stores the status. */
  lemma UnansweredIs<S, T>(store: Option<Object<S, T>>, version: nat, status: T, fate: Fate)
    requires !fate.Works?
    ensures var u := Updated(store, version, status, fate);
            && u.verdict == Unanswered
            && (u.store != store ==>
                  && fate.Lost? && store.Some? && store.value.version == version
                  && u.store == Some(store.value.(status := status, version := version + 1)))
            && (fate.Lost? && store.Some? && store.value.version == version ==> u.store != store)
  {
  }

  /** A server pass writes its status itself and then hands the object, with the version it
      read at the start, to the base.  With no other writer the base's write conflicts once
      and lands at the second attempt, and not with a bound of one. */
  lemma OwnWriteThenBase<S(!new), T(!new)>(
      store: Object<S, T>, own: T, final: T, others: Others<S, T>, fates: Fates, bound: nat)
    requires bound > 0 && forall t :: |others(t)| == 0 && fates(t).Works?
    ensures var mid := OwnAttempts(Some(store), own, others, fates, 0, bound);
            && mid.verdict == Landed && mid.attempts == 1
            && var end := Attempts(mid.store, store.version, final, others, fates, 0, bound);
            && (end.verdict == Landed <==> bound >= 2)
            && (bound >= 2 ==>
                  && end.attempts == 2
                  && end.store == Some(store.(status := final, version := store.version + 2)))
  {
    var mid := OwnAttempts(Some(store), own, others, fates, 0, bound);
    assert |others(0)| == 0 && |others(1)| == 0 && |others(2)| == 0;
    assert fates(0).Works? && fates(1).Works? && fates(2).Works?;
    assert mid.store == Some(store.(status := own, version := store.version + 1));
    var end := Attempts(mid.store, store.version, final, others, fates, 0, bound);
    if bound >= 2 {
      assert ApplyAll(mid.store, others(0)) == mid.store && ApplyAll(mid.store, others(1)) == mid.store;
      assert end == Attempts(mid.store, store.version + 1, final, others, fates, 1, bound - 1);
      assert ApplyAll(mid.store, others(2)) == mid.store;
    } else {
      assert end == Attempts(mid.store, store.version + 1, final, others, fates, 1, 0);
    }
  }

  // ---------- the same loops, in place ----------

  class ApiServer<S, T> {
    var stored: Option<Object<S, T>>

    constructor (stored: Option<Object<S, T>>)
      ensures this.stored == stored
    {
      this.stored := stored;
    }

    method Elsewhere(ws: seq<Write<S, T>>)
      modifies this
      ensures stored == ApplyAll(old(stored), ws)
    {
      var i := 0;
      while i < |ws|
        invariant 0 <= i <= |ws|
        invariant ApplyAll(stored, ws[i..]) == ApplyAll(old(stored), ws)
      {
        stored := Apply(stored, ws[i]);
        i := i + 1;
      }
    }

    method UpdateStatus(version: nat, status: T, fate: Fate) returns (v: Verdict)
      modifies this
      ensures Try(stored, v, 1) == Updated(old(stored), version, status, fate)
    {
      if fate.Refused? { return Unanswered; }
      v := Conflicted;
      if stored.None? {
        v := Missing;
      } else if stored.value.version == version {
        stored := Some(stored.value.(status := status, version := version + 1));
        v := Landed;
      }
      if !fate.Works? { v := Unanswered; }
    }

    method UpdateStatusWithRetry(version0: nat, status: T, others: Others<S, T>, fates: Fates, bound: nat)
      returns (v: Verdict, attempts: nat)
      modifies this
      ensures Try(stored, v, attempts) == Attempts(old(stored), version0, status, others, fates, 0, bound)
    {
      var version := version0;
      v, attempts := Conflicted, 0;
      while attempts < bound
        invariant attempts <= bound && v == Conflicted
        invariant Attempts(stored, version, status, others, fates, attempts, bound - attempts)
               == Attempts(old(stored), version0, status, others, fates, 0, bound)
      {
        Elsewhere(others(2 * attempts));
        v := UpdateStatus(version, status, fates(2 * attempts));
        if v != Conflicted { return v, attempts + 1; }
        Elsewhere(others(2 * attempts + 1));
        if !fates(2 * attempts + 1).Works? { return Unanswered, attempts + 1; }
        if stored.None? { return Missing, attempts + 1; }
        version := stored.value.version;
        attempts := attempts + 1;
      }
    }

    method UpdateServerStatusWithRetry(status: T, others: Others<S, T>, fates: Fates, bound: nat)
      returns (v: Verdict, attempts: nat)
      modifies this
      ensures Try(stored, v, attempts) == OwnAttempts(old(stored), status, others, fates, 0, bound)
    {
      v, attempts := Conflicted, 0;
      while attempts < bound
        invariant attempts <= bound && v == Conflicted
        invariant OwnAttempts(stored, status, others, fates, attempts, bound - attempts)
               == OwnAttempts(old(stored), status, others, fates, 0, bound)
      {
        Elsewhere(others(2 * attempts));
        if !fates(2 * attempts).Works? { return Unanswered, attempts + 1; }
        if stored.None? { return Missing, attempts + 1; }
        var read := stored.value;
        Elsewhere(others(2 * attempts + 1));
        v := UpdateStatus(read.version, status, fates(2 * attempts + 1));
        if v != Conflicted { return v, attempts + 1; }
        attempts := attempts + 1;
      }
    }
  }
}
