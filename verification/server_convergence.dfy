/** A type change converges, exactly when it can, and with exactly one power cycle. */
module ServerConvergence {
  import opened Prelude
  import opened ServerCloud
  import opened ServerController
  import opened ServerRuns

  // ---------- progress ----------

  /** No event, whatever fails in it, undoes progress. */
  lemma StepNeverRegresses(w: World, e: Event)
    requires MidResize(w) && Usable(w) && SteadyEvent(e)
    ensures var w' := Step(w, e); MidResize(w') && Usable(w') && Measure(w') <= Measure(w)
  {
    if e.Passed? {
      var made := PassFacts(w, e.sc);
      var o := Pass(w, e.sc);
      if Waited(w, o) {
        WaitedKeeps(w, o, e.landed);
      } else if |made| == 1 && Turned(w, o, made[0]) {
        TurnedKeeps(w, o, made[0], e.landed);
      } else {
        NetworkedKeeps(w, o, made, e.landed);
      }
    }
  }

  /** A pass in which nothing fails makes progress from every state the cloud will not leave
      by itself. */
  lemma CleanPassProgresses(w: World, sc: Script)
    requires MidResize(w) && Usable(w) && Steady(sc) && Clean(sc)
    requires !Transitional(w.host.server.value.power) && w.stored.appliedKind != w.spec.kind
    ensures Measure(Step(w, Passed(sc, true))) < Measure(w)
  {
    assert sc.beat(AtFetch).fate.Works? && !sc.beat(AtFetch).drift.Gone?;
    var s, h, st := w.host.server.value, w.host, w.stored;
    if Wrong(w.spec, s) {
      var c := MismatchFacts(w.spec, w.id, h, st, s, sc);
      TurnedKeeps(w, Pass(w, sc), c, true);
    } else if s.power.Off? {
      PowerUpFacts(w.spec, w.id, h, st, s, sc);
      TurnedKeeps(w, Pass(w, sc), PowerOn, true);
    } else {
      CleanStableFacts(w.spec, w.id, h, st, s, sc);
      var made := StableFacts(w.spec, w.id, h, st, s, sc);
      NetworkedKeeps(w, Pass(w, sc), made, true);
    }
  }

  /** A converged server is left alone: no pass, however its calls fare, changes the cloud. */
  lemma ConvergedIsSilent(w: World, e: Event)
    requires Converged(w) && SteadyEvent(e)
    ensures Converged(Step(w, e)) && Step(w, e).host == w.host
  {
    if e.Passed? {
      assert !e.sc.beat(AtFetch).drift.Gone?;
      var made := PassFacts(w, e.sc);
      var n := EnsureNetwork(w.spec, w.host, w.stored, w.host.server.value, e.sc);
      assert n.host == w.host;
    }
  }

  // ---------- fair runs ----------

  /** Any events at all, then the cloud finishing what it is doing (`off` chooses where it may
      go either way), then one pass in which nothing fails. */
  datatype Round = Round(noise: seq<Event>, off: bool, sc: Script)

  /** Where the cloud goes from a state when it is left alone. */
  function Settled(p: Power, off: bool): (q: Power)
    ensures !Transitional(q) && if Transitional(p) then Moves(p, q) else q == p
  {
    match p
    case Initializing => Running
    case Stopping => Off
    case Starting => Running
    case Migrating => if off then Off else Running
    case Rebuilding => if off then Off else Running
    case _ => p
  }

  ghost predicate FairRound(r: Round) { SteadyRun(r.noise) && Steady(r.sc) && Clean(r.sc) }

  ghost predicate FairRounds(rs: seq<Round>) { forall r :: r in rs ==> FairRound(r) }

  ghost function AfterNoise(w: World, r: Round): World
    requires w.host.server.Some? && FairRound(r)
  {
    Run(w, r.noise)
  }

  ghost function Settling(u: World, r: Round): Event
    requires u.host.server.Some?
  {
    Moved(Settled(u.host.server.value.power, r.off))
  }

  ghost function PlayRound(w: World, r: Round): (w': World)
    requires w.host.server.Some? && FairRound(r)
    ensures w'.host.server.Some? && w'.spec == w.spec
  {
    var u := AfterNoise(w, r);
    Step(Step(u, Settling(u, r)), Passed(r.sc, true))
  }

  ghost function PlayRounds(w: World, rs: seq<Round>): (w': World)
    requires w.host.server.Some? && FairRounds(rs)
    ensures w'.host.server.Some? && w'.spec == w.spec
    decreases |rs|
  {
    if |rs| == 0 then w
    else
      assert rs[0] in rs;
      PlayRounds(PlayRound(w, rs[0]), rs[1..])
  }

  lemma {:induction false} RunNeverRegresses(w: World, es: seq<Event>)
    requires MidResize(w) && Usable(w) && SteadyRun(es)
    ensures var w' := Run(w, es); MidResize(w') && Usable(w') && Measure(w') <= Measure(w)
    decreases |es|
  {
    if |es| > 0 {
      assert es[0] in es;
      StepNeverRegresses(w, es[0]);
      RunNeverRegresses(Step(w, es[0]), es[1..]);
    }
  }

  lemma RoundProgresses(w: World, r: Round)
    requires MidResize(w) && Usable(w) && FairRound(r)
    ensures var w' := PlayRound(w, r);
            MidResize(w') && Usable(w') && (Measure(w) == 0 || Measure(w') < Measure(w)) && Measure(w') <= Measure(w)
  {
    RunNeverRegresses(w, r.noise);
    var u := AfterNoise(w, r);
    StepNeverRegresses(u, Settling(u, r));
    var v := Step(u, Settling(u, r));
    StepNeverRegresses(v, Passed(r.sc, true));
    if v.stored.appliedKind != v.spec.kind {
      assert !Transitional(v.host.server.value.power);
      CleanPassProgresses(v, r.sc);
    }
  }

  lemma {:induction false} RoundsProgress(w: World, rs: seq<Round>)
    requires MidResize(w) && Usable(w) && FairRounds(rs)
    ensures var w' := PlayRounds(w, rs);
            MidResize(w') && Usable(w') && (Measure(w') == 0 || Measure(w') + |rs| <= Measure(w))
    decreases |rs|
  {
    if |rs| > 0 {
      assert rs[0] in rs;
      RoundProgresses(w, rs[0]);
      RoundsProgress(PlayRound(w, rs[0]), rs[1..]);
    }
  }

  // ---------- servers that cannot converge ----------

  /** Another placement group, a network that cannot be had, or a server that cannot change. */
  ghost predicate Hopeless(w: World) {
    && w.host.server.Some? && w.spec.kind != "" && w.stored.appliedKind != w.spec.kind
    && (!Usable(w) || !Changeable(w.host.server.value))
  }

  lemma NetworkedStaysHopeless(w: World, o: Outcome, made: seq<Call>, landed: bool)
    requires Hopeless(w) && Networked(w, o, made)
    ensures Hopeless(AfterPass(w, o, landed))
  {
    var nets, old' := Members(w.host.server.value), w.stored.appliedNet;
    if w.spec.net.Refers? && w.spec.net.id !in w.host.networks && w.spec.net.id !in w.host.server.value.nets {
      ReplayOne(Detach(old'), nets);
      assert w.spec.net.id !in Members(o.host.server.value);
      assert w.spec.net.id !in o.host.server.value.nets;
    }
  }

  /** No event records a type for such a server. */
  lemma HopelessStays(w: World, e: Event)
    requires Hopeless(w) && SteadyEvent(e)
    ensures Hopeless(Step(w, e))
  {
    if e.Passed? {
      var made := PassFacts(w, e.sc);
      var o := Pass(w, e.sc);
      if Networked(w, o, made) { NetworkedStaysHopeless(w, o, made, e.landed); }
    }
  }

  lemma {:induction false} RunStaysHopeless(w: World, es: seq<Event>)
    requires Hopeless(w) && SteadyRun(es)
    ensures Hopeless(Run(w, es))
    decreases |es|
  {
    if |es| > 0 {
      assert es[0] in es;
      HopelessStays(w, es[0]);
      RunStaysHopeless(Step(w, es[0]), es[1..]);
    }
  }

  lemma {:induction false} RoundsStayHopeless(w: World, rs: seq<Round>)
    requires Hopeless(w) && FairRounds(rs)
    ensures Hopeless(PlayRounds(w, rs))
    decreases |rs|
  {
    if |rs| > 0 {
      assert rs[0] in rs;
      RunStaysHopeless(w, rs[0].noise);
      var u := AfterNoise(w, rs[0]);
      HopelessStays(u, Settling(u, rs[0]));
      HopelessStays(Step(u, Settling(u, rs[0])), Passed(rs[0].sc, true));
      RoundsStayHopeless(PlayRound(w, rs[0]), rs[1..]);
    }
  }

  /** Resize convergence, with its exact condition.  Take a live server whose spec asks for a
      type the controller has not recorded yet.  Every run made of rounds, as many as the
      measure says, ends with the type changed, the server running, the type recorded and the
      network in place if and only if the placement group and the network the spec refers to
      can be had and the server is one that can change.  The rounds may contain any number of
      failed, lost and crashed passes. */
  lemma FairRunsConvergeIff(w: World, rs: seq<Round>)
    requires w.host.server.Some? && w.spec.kind != "" && w.stored.appliedKind != w.spec.kind
    requires FairRounds(rs) && |rs| >= Measure(w)
    ensures Converged(PlayRounds(w, rs)) <==> Usable(w) && Changeable(w.host.server.value)
  {
    if Usable(w) && Changeable(w.host.server.value) {
      RoundsProgress(w, rs);
    } else {
      RoundsStayHopeless(w, rs);
    }
  }

  // ---------- one power cycle ----------

  predicate PowerCall(c: Call) { c.PowerOff? || c.PowerOn? || c.ChangeType? }

  /** The power and type calls of a log, in order. */
  function PowerCalls(log: seq<Call>): seq<Call>
    decreases |log|
  {
    if |log| == 0 then []
    else PowerCalls(log[..|log| - 1]) + if PowerCall(log[|log| - 1]) then [log[|log| - 1]] else []
  }

  function Cycle(spec: Spec): seq<Call> { [PowerOff, ChangeType(spec.kind, spec.upgradeDisk), PowerOn] }

  /** The states of a type change that began with a running server. */
  ghost predicate InCycle(w: World) {
    && w.host.server.Some?
    && var s := w.host.server.value;
    && if Wrong(w.spec, s) then s.power.Running? || s.power.Stopping? || s.power.Off?
       else s.power.Off? || s.power.Starting? || s.power.Running?
  }

  /** How many calls of the cycle have been made. */
  ghost function Phase(w: World): (p: nat)
    requires w.host.server.Some?
    ensures p <= 3
  {
    var s := w.host.server.value;
    if Wrong(w.spec, s) then (if s.power.Running? then 0 else 1)
    else if s.power.Off? then 2
    else 3
  }

  lemma PowerCallsOf(log: seq<Call>, made: seq<Call>)
    requires |made| <= 2
    ensures |made| == 0 ==> PowerCalls(log + made) == PowerCalls(log)
    ensures |made| == 1 ==> PowerCalls(log + made) == PowerCalls(log) + PowerCalls(made)
    ensures |made| == 2 && !PowerCall(made[0]) && !PowerCall(made[1]) ==> PowerCalls(log + made) == PowerCalls(log)
  {
    if |made| == 0 {
      assert log + made == log;
    } else if |made| == 1 {
      assert (log + made)[..|log|] == log && made[..0] == [];
    } else {
      var one := log + made[..1];
      assert (log + made)[..|log| + 1] == one && one[..|log|] == log;
    }
  }

  /** From `w` to `w'` the cloud received exactly the calls of the cycle between their phases. */
  ghost predicate Follows(w: World, w': World)
    requires w.host.server.Some? && w'.host.server.Some?
  {
    && w'.spec == w.spec && Phase(w) <= Phase(w')
    && PowerCalls(w'.host.log) == PowerCalls(w.host.log) + Cycle(w.spec)[Phase(w)..Phase(w')]
  }

  lemma FollowsTwice(u: World, v: World, w: World)
    requires u.host.server.Some? && v.host.server.Some? && w.host.server.Some?
    requires Follows(u, v) && Follows(v, w)
    ensures Follows(u, w)
  {
    SliceSplits(Cycle(u.spec), Phase(u), Phase(v), Phase(w));
  }

  lemma SliceSplits(cs: seq<Call>, p: nat, q: nat, r: nat)
    requires p <= q <= r <= |cs|
    ensures cs[p..r] == cs[p..q] + cs[q..r]
  {
  }

  lemma TurnFollowsCycle(w: World, o: Outcome, c: Call, landed: bool)
    requires InCycle(w) && Turned(w, o, c)
    ensures var w' := AfterPass(w, o, landed); InCycle(w') && Follows(w, w')
  {
    PowerCallsOf(w.host.log, [c]);
    assert [c][..0] == [];
    assert PowerCalls([c]) == [c];
    var w' := AfterPass(w, o, landed);
    assert Cycle(w.spec)[Phase(w)..Phase(w')] == [c];
  }

  /** A pass that makes no power or type call stays in its phase. */
  lemma StillFollowsCycle(w: World, w': World, made: seq<Call>)
    requires InCycle(w) && InCycle(w') && w'.spec == w.spec && Phase(w') == Phase(w)
    requires w'.host.log == w.host.log + made && |made| <= 2 && forall c :: c in made ==> !PowerCall(c)
    ensures Follows(w, w')
  {
    PowerCallsOf(w.host.log, made);
    if |made| == 1 { assert made[..0] == [] && PowerCalls(made) == []; }
    assert Cycle(w.spec)[Phase(w)..Phase(w')] == [];
  }

  lemma WaitFollowsCycle(w: World, o: Outcome, landed: bool)
    requires InCycle(w) && Waited(w, o)
    ensures var w' := AfterPass(w, o, landed); InCycle(w') && Follows(w, w')
  {
    assert w.host.log + [] == w.host.log;
    StillFollowsCycle(w, AfterPass(w, o, landed), []);
  }

  lemma NetworkFollowsCycle(w: World, o: Outcome, made: seq<Call>, landed: bool)
    requires InCycle(w) && Networked(w, o, made)
    ensures var w' := AfterPass(w, o, landed); InCycle(w') && Follows(w, w')
  {
    assert forall c :: c in made ==> !PowerCall(c);
    StillFollowsCycle(w, AfterPass(w, o, landed), made);
  }

  lemma StepFollowsCycle(w: World, e: Event)
    requires InCycle(w) && SteadyEvent(e)
    ensures var w' := Step(w, e); InCycle(w') && Follows(w, w')
  {
    if e.Passed? {
      var made := PassFacts(w, e.sc);
      var o := Pass(w, e.sc);
      if Waited(w, o) {
        WaitFollowsCycle(w, o, e.landed);
      } else if |made| == 1 && Turned(w, o, made[0]) {
        TurnFollowsCycle(w, o, made[0], e.landed);
      } else {
        NetworkFollowsCycle(w, o, made, e.landed);
      }
    } else {
      var w' := Step(w, e);
      assert Phase(w) == Phase(w') && Cycle(w.spec)[Phase(w)..Phase(w')] == [];
    }
  }

  /** Exactly one power cycle per type change.  Over any run of passes and cloud transitions,
      with any calls failing and whatever becomes of the references of the spec, the power and
      type calls the cloud received are the slice of the cycle off, change, on between where
      the server was and where it is: none is repeated, skipped or out of order. */
  lemma {:induction false} RunFollowsCycle(w: World, es: seq<Event>)
    requires InCycle(w) && SteadyRun(es)
    ensures InCycle(Run(w, es)) && Follows(w, Run(w, es))
    decreases |es|
  {
    if |es| == 0 {
      assert Cycle(w.spec)[Phase(w)..Phase(w)] == [];
    } else {
      assert es[0] in es;
      StepFollowsCycle(w, es[0]);
      var v := Step(w, es[0]);
      RunFollowsCycle(v, es[1..]);
      FollowsTwice(w, v, Run(v, es[1..]));
    }
  }

  /** In particular a run that began with a running server of the wrong type and ends with a
      running one of the wanted type made each call once. */
  lemma ConvergedRunMadeOneCycle(w: World, es: seq<Event>)
    requires InCycle(w) && SteadyRun(es)
    requires Wrong(w.spec, w.host.server.value) && w.host.server.value.power.Running?
    requires var t := Run(w, es).host.server.value; !Wrong(w.spec, t) && t.power.Running?
    ensures PowerCalls(Run(w, es).host.log)
            == PowerCalls(w.host.log) + [PowerOff, ChangeType(w.spec.kind, w.spec.upgradeDisk), PowerOn]
  {
    RunFollowsCycle(w, es);
    assert Cycle(w.spec)[0..3] == Cycle(w.spec);
  }

  // ---------- restarted or not ----------

  /** A server on its way through the cycle; only the lag of the recorded type makes the
      controller power a server on again (line 177), so a server whose type is recorded is
      still to be retyped, or retyped and off, or done. */
  ghost predicate Restarting(w: World) {
    && InCycle(w) && w.stored.appliedKind != w.spec.kind
    && (Wrong(w.spec, w.host.server.value) || w.host.server.value.kind == w.spec.kind)
  }

  ghost predicate Restarted(w: World) {
    w.host.server.Some? && w.host.server.value.kind == w.spec.kind && w.host.server.value.power.Running?
  }

  ghost predicate Reverting(w: World) {
    && InCycle(w) && w.stored.appliedKind == w.spec.kind
    && var s := w.host.server.value;
    && (Wrong(w.spec, s) || (s.kind == w.spec.kind && s.power.Off?))
  }

  /** How far the server is from where the cycle leaves it. */
  ghost function Depth(w: World): (d: nat)
    requires w.host.server.Some?
    ensures d <= 4
  {
    var s := w.host.server.value;
    if Wrong(w.spec, s) then (if s.power.Running? then 4 else 3)
    else if s.power.Off? then 2
    else if s.power.Starting? then 1
    else 0
  }

  ghost predicate Underway(w: World) { Restarting(w) || Restarted(w) || Reverting(w) }

  ghost predicate Closer(w: World, w': World)
    requires w.host.server.Some? && w'.host.server.Some?
  {
    && Depth(w') <= Depth(w)
    && (Reverting(w) ==> Reverting(w'))
    && (Restarting(w) || Restarted(w) ==> Restarting(w') || Restarted(w'))
  }

  lemma StepComesCloser(w: World, e: Event)
    requires Underway(w) && SteadyEvent(e)
    ensures var w' := Step(w, e); Underway(w') && Closer(w, w')
  {
    if e.Passed? {
      var made := PassFacts(w, e.sc);
      ShapeComesCloser(w, Pass(w, e.sc), made, e.landed);
    }
  }

  lemma ShapeComesCloser(w: World, o: Outcome, made: seq<Call>, landed: bool)
    requires Underway(w)
    requires Waited(w, o) || (|made| == 1 && Turned(w, o, made[0])) || Networked(w, o, made)
    ensures o.host.server.Some? && var w' := AfterPass(w, o, landed); Underway(w') && Closer(w, w')
  {
  }

  /** Where the pass has something to do, a pass without faults does it. */
  lemma CleanPassComesCloser(w: World, sc: Script)
    requires Underway(w) && Steady(sc) && Clean(sc) && !Transitional(w.host.server.value.power)
    requires if Reverting(w) then Depth(w) > 2 else Depth(w) > 0
    ensures Depth(Step(w, Passed(sc, true))) < Depth(w)
  {
    assert sc.beat(AtFetch).fate.Works? && !sc.beat(AtFetch).drift.Gone?;
    var s := w.host.server.value;
    if Wrong(w.spec, s) {
      var c := MismatchFacts(w.spec, w.id, w.host, w.stored, s, sc);
    } else {
      PowerUpFacts(w.spec, w.id, w.host, w.stored, s, sc);
    }
  }

  lemma {:induction false} RunComesCloser(w: World, es: seq<Event>)
    requires Underway(w) && SteadyRun(es)
    ensures Underway(Run(w, es)) && Closer(w, Run(w, es))
    decreases |es|
  {
    if |es| > 0 {
      assert es[0] in es;
      StepComesCloser(w, es[0]);
      RunComesCloser(Step(w, es[0]), es[1..]);
    }
  }

  lemma RoundComesCloser(w: World, r: Round)
    requires Underway(w) && FairRound(r)
    ensures var w' := PlayRound(w, r);
            && Underway(w') && Closer(w, w')
            && (Depth(w) > (if Reverting(w) then 2 else 0) ==> Depth(w') < Depth(w))
  {
    RunComesCloser(w, r.noise);
    var u := AfterNoise(w, r);
    StepComesCloser(u, Settling(u, r));
    var v := Step(u, Settling(u, r));
    StepComesCloser(v, Passed(r.sc, true));
    if Depth(v) > if Reverting(v) then 2 else 0 { CleanPassComesCloser(v, r.sc); }
  }

  lemma {:induction false} RoundsComeCloser(w: World, rs: seq<Round>)
    requires Underway(w) && FairRounds(rs)
    ensures var w' := PlayRounds(w, rs);
            && Underway(w') && Closer(w, w')
            && (Depth(w') <= (if Reverting(w) then 2 else 0) || Depth(w') + |rs| <= Depth(w))
    decreases |rs|
  {
    if |rs| > 0 {
      assert rs[0] in rs;
      RoundComesCloser(w, rs[0]);
      RoundsComeCloser(PlayRound(w, rs[0]), rs[1..]);
    }
  }

  /** A running server of the wrong type is powered off, retyped, and powered on again if and
      only if the recorded type is not the wanted one when the change starts; four rounds are
      enough, and no reference of the spec matters. */
  lemma RestartsIff(w: World, rs: seq<Round>)
    requires w.host.server.Some? && w.host.server.value.power.Running? && Wrong(w.spec, w.host.server.value)
    requires FairRounds(rs) && |rs| >= 4
    ensures var s := PlayRounds(w, rs).host.server.value;
            && s.kind == w.spec.kind
            && (s.power.Running? <==> w.stored.appliedKind != w.spec.kind)
            && (s.power.Off? <==> w.stored.appliedKind == w.spec.kind)
  {
    RoundsComeCloser(w, rs);
  }

  lemma ShapeRecords(w: World, o: Outcome, made: seq<Call>)
    requires Waited(w, o) || (|made| == 1 && Turned(w, o, made[0])) || Networked(w, o, made)
    ensures o.status.appliedKind != w.stored.appliedKind ==>
              && o.status.appliedKind == w.spec.kind
              && o.host.server.value.kind == w.spec.kind && o.host.server.value.power.Running?
  {
  }

  /** The recorded type changes only to the wanted one, and only for a running server of that
      type; a type change is never asked of a server that is not off. */
  lemma RecordedTypeIsObserved(w: World, sc: Script)
    requires w.host.server.Some? && Steady(sc)
    ensures var o := Pass(w, sc);
            && o.end != Errored(MustBeOff) && !o.end.Panicked?
            && (o.status.appliedKind != w.stored.appliedKind ==>
                  && o.status.appliedKind == w.spec.kind && o.host.server.Some?
                  && o.host.server.value.kind == w.spec.kind && o.host.server.value.power.Running?)
  {
    var made := PassFacts(w, sc);
    ShapeRecords(w, Pass(w, sc), made);
  }
}
