/** The Synced and Ready conditions (internal/reconcile/base.go:131-159): how conditions are
    set, what the base makes of the outcome of a pass, and which statuses a reader can see. */
module Conditions {
  import opened Prelude

  datatype Condition = Condition(kind: string, yes: bool, reason: string)

  const SYNCED := "Synced"
  const READY := "Ready"

  predicate UniqueKinds(cs: seq<Condition>) {
    forall i, j :: 0 <= i < j < |cs| ==> cs[i].kind != cs[j].kind
  }

  /** The first condition of a kind. */
  function Lookup(cs: seq<Condition>, kind: string): Option<Condition> {
    if |cs| == 0 then None
    else if cs[0].kind == kind then Some(cs[0])
    else Lookup(cs[1..], kind)
  }

  /** Replace the condition of the same kind where it stands, or append. */
  function Upsert(cs: seq<Condition>, c: Condition): (r: seq<Condition>)
    ensures |cs| <= |r| <= |cs| + 1
  {
    if |cs| == 0 then [c]
    else if cs[0].kind == c.kind then [c] + cs[1..]
    else [cs[0]] + Upsert(cs[1..], c)
  }

  lemma {:induction false} UpsertLooksUp(cs: seq<Condition>, c: Condition, kind: string)
    ensures Lookup(Upsert(cs, c), kind) == if kind == c.kind then Some(c) else Lookup(cs, kind)
  {
    if |cs| > 0 && cs[0].kind != c.kind { UpsertLooksUp(cs[1..], c, kind); }
  }

  lemma {:induction false} UpsertKinds(cs: seq<Condition>, c: Condition)
    ensures var r := Upsert(cs, c);
            forall i :: 0 <= i < |r| ==> r[i].kind == if i < |cs| then cs[i].kind else c.kind
  {
    if |cs| > 0 && cs[0].kind != c.kind { UpsertKinds(cs[1..], c); }
  }

  /** A new entry is made only for a kind that was not there. */
  lemma {:induction false} UpsertGrows(cs: seq<Condition>, c: Condition)
    ensures |Upsert(cs, c)| == |cs| + 1 <==> forall i :: 0 <= i < |cs| ==> cs[i].kind != c.kind
  {
    if |cs| > 0 && cs[0].kind != c.kind { UpsertGrows(cs[1..], c); }
  }

  lemma {:induction false} UpsertAt(cs: seq<Condition>, c: Condition, i: nat)
    requires i <= |cs| && forall k :: 0 <= k < i ==> cs[k].kind != c.kind
    requires i < |cs| ==> cs[i].kind == c.kind
    ensures Upsert(cs, c) == if i < |cs| then cs[i := c] else cs + [c]
  {
    if i > 0 { UpsertAt(cs[1..], c, i - 1); }
  }

  lemma UpsertKeepsUnique(cs: seq<Condition>, c: Condition)
    requires UniqueKinds(cs)
    ensures UniqueKinds(Upsert(cs, c))
  {
    UpsertKinds(cs, c);
    UpsertGrows(cs, c);
  }

  function UpsertAll(cs: seq<Condition>, news: seq<Condition>): seq<Condition>
    decreases |news|
  {
    if |news| == 0 then cs else UpsertAll(Upsert(cs, news[0]), news[1..])
  }

  /** One reconcile pass as far as conditions go: what the domain logic sets, how much of that
      it had set when it wrote the status itself, if it did, whether it failed, and whether the
      base's final write landed.  The server controller writes after its last condition, the
      network controller in the middle (hcloudnetwork_controller.go:100-103). */
  datatype Turn = Turn(domain: seq<Condition>, wrote: Option<nat>, failed: bool, landed: bool) {
    /** What the controller's own write stored. */
    function Written(): seq<Condition> {
      if wrote.None? then [] else if wrote.value <= |domain| then domain[..wrote.value] else domain
    }
  }

  /** Only the base sets Synced. */
  predicate Proper(t: Turn) { forall i :: 0 <= i < |t.domain| ==> t.domain[i].kind != SYNCED }

  function Verdict(cs: seq<Condition>, failed: bool): seq<Condition> {
    if failed
    then Upsert(Upsert(cs, Condition(SYNCED, false, "ReconcileError")), Condition(READY, false, "ReconcileError"))
    else Upsert(cs, Condition(SYNCED, true, "ReconcileSuccess"))
  }

  /** The stored conditions after a pass. */
  function Step(stored: seq<Condition>, t: Turn): seq<Condition> {
    if t.landed then Verdict(UpsertAll(stored, t.domain), t.failed) else UpsertAll(stored, t.Written())
  }

  function Run(stored: seq<Condition>, ts: seq<Turn>): seq<Condition>
    decreases |ts|
  {
    if |ts| == 0 then stored else Run(Step(stored, ts[0]), ts[1..])
  }

  predicate IsFalse(c: Option<Condition>) { c.Some? && !c.value.yes }

  /** A resource whose last pass failed never shows as ready. */
  predicate Coherent(cs: seq<Condition>) {
    IsFalse(Lookup(cs, SYNCED)) ==> IsFalse(Lookup(cs, READY))
  }

  lemma {:induction false} UpsertAllKeeps(cs: seq<Condition>, news: seq<Condition>)
    requires UniqueKinds(cs)
    ensures UniqueKinds(UpsertAll(cs, news))
    ensures (forall i :: 0 <= i < |news| ==> news[i].kind != SYNCED)
            ==> Lookup(UpsertAll(cs, news), SYNCED) == Lookup(cs, SYNCED)
    decreases |news|
  {
    if |news| > 0 {
      UpsertKeepsUnique(cs, news[0]);
      UpsertLooksUp(cs, news[0], SYNCED);
      UpsertAllKeeps(Upsert(cs, news[0]), news[1..]);
    }
  }

  lemma VerdictFacts(cs: seq<Condition>, failed: bool)
    requires UniqueKinds(cs)
    ensures var r := Verdict(cs, failed);
            && UniqueKinds(r) && Coherent(r)
            && Lookup(r, SYNCED)
               == Some(Condition(SYNCED, !failed, if failed then "ReconcileError" else "ReconcileSuccess"))
            && (failed ==> Lookup(r, READY) == Some(Condition(READY, false, "ReconcileError")))
            && (forall kind :: kind != SYNCED && kind != READY ==> Lookup(r, kind) == Lookup(cs, kind))
            && (!failed ==> Lookup(r, READY) == Lookup(cs, READY))
  {
    var sf, rf, st := Condition(SYNCED, false, "ReconcileError"), Condition(READY, false, "ReconcileError"),
                      Condition(SYNCED, true, "ReconcileSuccess");
    assert SYNCED[0] != READY[0];
    if failed {
      UpsertKeepsUnique(cs, sf);
      UpsertKeepsUnique(Upsert(cs, sf), rf);
      UpsertLooksUp(Upsert(cs, sf), rf, SYNCED);
      UpsertLooksUp(Upsert(cs, sf), rf, READY);
      UpsertLooksUp(cs, sf, SYNCED);
      forall kind | kind != SYNCED && kind != READY ensures Lookup(Verdict(cs, failed), kind) == Lookup(cs, kind) {
        UpsertLooksUp(Upsert(cs, sf), rf, kind);
        UpsertLooksUp(cs, sf, kind);
      }
    } else {
      UpsertKeepsUnique(cs, st);
      UpsertLooksUp(cs, st, SYNCED);
      UpsertLooksUp(cs, st, READY);
      forall kind | kind != SYNCED ensures Lookup(Verdict(cs, failed), kind) == Lookup(cs, kind) {
        UpsertLooksUp(cs, st, kind);
      }
    }
  }

  /** The last condition of a kind that a pass sets, if it sets one. */
  function LastSet(news: seq<Condition>, kind: string): Option<Condition>
    decreases |news|
  {
    if |news| == 0 then None
    else if news[|news| - 1].kind == kind then Some(news[|news| - 1])
    else LastSet(news[..|news| - 1], kind)
  }

  lemma {:induction false} UpsertAllLooksUp(cs: seq<Condition>, news: seq<Condition>, kind: string)
    ensures var last := LastSet(news, kind);
            Lookup(UpsertAll(cs, news), kind) == if last.Some? then last else Lookup(cs, kind)
    decreases |news|
  {
    if |news| > 0 {
      var n := |news| - 1;
      UpsertAllLooksUp(cs, news[..n], kind);
      UpsertAllLast(cs, news);
      UpsertLooksUp(UpsertAll(cs, news[..n]), news[n], kind);
    }
  }

  lemma {:induction false} UpsertAllLast(cs: seq<Condition>, news: seq<Condition>)
    requires |news| > 0
    ensures UpsertAll(cs, news) == Upsert(UpsertAll(cs, news[..|news| - 1]), news[|news| - 1])
    decreases |news|
  {
    if |news| > 1 {
      UpsertAllLast(Upsert(cs, news[0]), news[1..]);
      assert news[1..][..|news| - 2] == news[..|news| - 1][1..];
    } else {
      assert news[1..] == [];
    }
  }

  /** What is read after a pass: of every kind but the base's own, the last thing set before the
      write that landed last, else what was stored; Ready is the base's as well after a failure. */
  lemma StepReads(stored: seq<Condition>, t: Turn, kind: string)
    requires UniqueKinds(stored) && kind != SYNCED
    ensures var last := LastSet(if t.landed then t.domain else t.Written(), kind);
            !(t.landed && t.failed && kind == READY) ==>
              Lookup(Step(stored, t), kind) == if last.Some? then last else Lookup(stored, kind)
    ensures t.landed ==>
              Lookup(Step(stored, t), SYNCED).Some? && (Lookup(Step(stored, t), SYNCED).value.yes <==> !t.failed)
    ensures t.landed && t.failed ==> IsFalse(Lookup(Step(stored, t), READY))
  {
    if t.landed {
      UpsertAllKeeps(stored, t.domain);
      UpsertAllLooksUp(stored, t.domain, kind);
      VerdictFacts(UpsertAll(stored, t.domain), t.failed);
    } else {
      UpsertAllLooksUp(stored, t.Written(), kind);
    }
  }

  /** What a pass stores when only its own write in mid-pass lands: the conditions set before it
      and none set later. */
  lemma MidPassReads(stored: seq<Condition>, before: seq<Condition>, later: seq<Condition>, failed: bool, kind: string)
    ensures var last := LastSet(before, kind);
            Lookup(Step(stored, Turn(before + later, Some(|before|), failed, false)), kind)
            == if last.Some? then last else Lookup(stored, kind)
    ensures Step(stored, Turn(before + later, None, failed, false)) == stored
  {
    assert (before + later)[..|before|] == before;
    UpsertAllLooksUp(stored, before, kind);
  }

  /** A pass leaves an incoherent status exactly when the stored one says that the last pass
      failed, the base's write does not land, and the last thing set to Ready before the
      controller's own write, if that landed, is true. */
  lemma IncoherentIff(stored: seq<Condition>, t: Turn)
    requires UniqueKinds(stored) && Coherent(stored) && Proper(t)
    ensures UniqueKinds(Step(stored, t))
    ensures !Coherent(Step(stored, t)) <==>
              && t.wrote.Some? && !t.landed && IsFalse(Lookup(stored, SYNCED))
              && LastSet(t.Written(), READY).Some? && LastSet(t.Written(), READY).value.yes
  {
    if t.landed {
      UpsertAllKeeps(stored, t.domain);
      VerdictFacts(UpsertAll(stored, t.domain), t.failed);
    } else {
      assert forall i :: 0 <= i < |t.Written()| ==> t.Written()[i] == t.domain[i];
      StoredBefore(stored, t.Written());
    }
  }

  /** What is stored when only the controller's own write lands. */
  lemma StoredBefore(stored: seq<Condition>, news: seq<Condition>)
    requires UniqueKinds(stored) && Coherent(stored)
    requires forall i :: 0 <= i < |news| ==> news[i].kind != SYNCED
    ensures UniqueKinds(UpsertAll(stored, news))
    ensures !Coherent(UpsertAll(stored, news)) <==>
              IsFalse(Lookup(stored, SYNCED)) && LastSet(news, READY).Some? && LastSet(news, READY).value.yes
  {
    UpsertAllKeeps(stored, news);
    UpsertAllLooksUp(stored, news, READY);
  }

  /** So the write in the middle of the pass that creates a network, which follows a false
      Ready, never leaves an incoherent status, whatever is set after it. */
  lemma EarlyWriteIsCoherent(stored: seq<Condition>, t: Turn)
    requires UniqueKinds(stored) && Coherent(stored) && Proper(t)
    requires LastSet(t.Written(), READY).Some? && !LastSet(t.Written(), READY).value.yes
    ensures Coherent(Step(stored, t))
  {
    IncoherentIff(stored, t);
  }

  /** Over every run of passes, kinds stay unique and a status whose last write was a base
      write, or no write, is coherent. */
  lemma {:induction false} RunsAreCoherent(stored: seq<Condition>, ts: seq<Turn>)
    requires UniqueKinds(stored) && Coherent(stored)
    requires forall i :: 0 <= i < |ts| ==> Proper(ts[i])
    ensures UniqueKinds(Run(stored, ts))
    ensures (forall i :: 0 <= i < |ts| && ts[i].wrote.Some? ==> ts[i].landed) ==> Coherent(Run(stored, ts))
    decreases |ts|
  {
    if |ts| > 0 {
      IncoherentIff(stored, ts[0]);
      assert forall i :: 0 <= i < |ts[1..]| ==> ts[1..][i] == ts[i + 1];
      if Coherent(Step(stored, ts[0])) {
        RunsAreCoherent(Step(stored, ts[0]), ts[1..]);
      } else {
        RunKeepsUnique(Step(stored, ts[0]), ts[1..]);
      }
    }
  }

  lemma {:induction false} RunKeepsUnique(stored: seq<Condition>, ts: seq<Turn>)
    requires UniqueKinds(stored)
    ensures UniqueKinds(Run(stored, ts))
    decreases |ts|
  {
    if |ts| > 0 {
      var mid := UpsertAll(stored, ts[0].domain);
      UpsertAllKeeps(stored, ts[0].domain);
      UpsertAllKeeps(stored, ts[0].Written());
      VerdictFacts(mid, ts[0].failed);
      RunKeepsUnique(Step(stored, ts[0]), ts[1..]);
    }
  }

  /** And one landed base write repairs it, whatever came before. */
  lemma {:induction false} LandedWriteRestores(stored: seq<Condition>, ts: seq<Turn>)
    requires UniqueKinds(stored) && |ts| > 0 && ts[|ts| - 1].landed
    ensures Coherent(Run(stored, ts))
    decreases |ts|
  {
    var mid := UpsertAll(stored, ts[0].domain);
    UpsertAllKeeps(stored, ts[0].domain);
    UpsertAllKeeps(stored, ts[0].Written());
    VerdictFacts(mid, ts[0].failed);
    if |ts| == 1 {
      assert ts[1..] == [];
    } else {
      assert ts[1..][|ts[1..]| - 1] == ts[|ts| - 1];
      LandedWriteRestores(Step(stored, ts[0]), ts[1..]);
    }
  }

  /** The upsert as the library performs it, on the object's own list. */
  class ConditionList {
    var items: seq<Condition>

    constructor (items: seq<Condition>)
      ensures this.items == items
    {
      this.items := items;
    }

    method SetCondition(c: Condition)
      modifies this
      ensures items == Upsert(old(items), c)
    {
      var i := 0;
      while i < |items| && items[i].kind != c.kind
        invariant 0 <= i <= |items|
        invariant forall k :: 0 <= k < i ==> items[k].kind != c.kind
      {
        i := i + 1;
      }
      UpsertAt(items, c, i);
      items := if i < |items| then items[i := c] else items + [c];
    }

    method Conclude(failed: bool)
      modifies this
      ensures items == Verdict(old(items), failed)
    {
      if failed {
        SetCondition(Condition(SYNCED, false, "ReconcileError"));
        SetCondition(Condition(READY, false, "ReconcileError"));
      } else {
        SetCondition(Condition(SYNCED, true, "ReconcileSuccess"));
      }
    }
  }
}
