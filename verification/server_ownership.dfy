/** What the server reconciler does to private networks and to the Ready condition over runs
    in which calls fail, statuses are lost, others attach and detach networks, and the spec
    changes (internal/controller/hcloudserver_controller.go:208-319, 384-403, 439-450). */
module ServerOwnership {
  import opened Prelude
  import opened ServerCloud
  import opened ServerController
  import opened ServerRuns

  // ---------- the networks a pass leaves ----------

  /** The networks the next successful pass will leave. */
  ghost function Aim(w: World): set<nat>
    requires w.host.server.Some?
  {
    NetworkGoal(w.spec.net, Members(w.host.server.value), w.stored.appliedNet)
  }

  /** A pass that got as far as the network without an error leaves exactly the goal: target
      attached, recorded network detached, every other network as it was; and the status
      names the target. */
  lemma SuccessReachesGoal(w: World, sc: Script)
    requires w.host.server.Some? && Steady(sc)
    requires var e := Pass(w, sc).end; e.Finished? && !e.stage.Resize? && !e.stage.PowerUp?
    ensures var o := Pass(w, sc);
            && o.host.server.Some?
            && Members(o.host.server.value) == Aim(w)
            && NetworkSettled(w.spec, o.host.server.value, o.status)
  {
    assert !sc.beat(AtFetch).drift.Gone?;
    var f := Fetched(w, sc);
    var made := StableFacts(w.spec, w.id, f.host, w.stored, f.host.server.value, sc);
  }

  /** What a pass that failed anywhere leaves to be done is what was to be done before it,
      whether or not its status was stored. */
  lemma GoalSurvives(w: World, e: Event)
    requires w.host.server.Some? && SteadyEvent(e)
    ensures Aim(Step(w, e)) == Aim(w)
  {
    if e.Passed? {
      var made := PassFacts(w, e.sc);
      ShapeKeepsGoal(w, Pass(w, e.sc), made, e.landed);
    }
  }

  lemma ShapeKeepsGoal(w: World, o: Outcome, made: seq<Call>, landed: bool)
    requires Waited(w, o) || (|made| == 1 && Turned(w, o, made[0])) || Networked(w, o, made)
    ensures o.host.server.Some? && Aim(AfterPass(w, o, landed)) == Aim(w)
  {
  }

  lemma {:induction false} GoalSurvivesRun(w: World, es: seq<Event>)
    requires w.host.server.Some? && SteadyRun(es)
    ensures Aim(Run(w, es)) == Aim(w)
    decreases |es|
  {
    if |es| > 0 {
      assert es[0] in es;
      GoalSurvives(w, es[0]);
      GoalSurvivesRun(Step(w, es[0]), es[1..]);
    }
  }

  /** After any number of passes that failed or crashed at any point, the first pass that
      succeeds puts the networks where it would have put them had nothing failed. */
  lemma NetworksRecover(w: World, es: seq<Event>, sc: Script)
    requires w.host.server.Some? && SteadyRun(es) && Steady(sc)
    requires var e := Pass(Run(w, es), sc).end; e.Finished? && !e.stage.Resize? && !e.stage.PowerUp?
    ensures var o := Pass(Run(w, es), sc);
            && o.host.server.Some?
            && Members(o.host.server.value) == Aim(w)
            && NetworkSettled(w.spec, o.host.server.value, o.status)
  {
    GoalSurvivesRun(w, es);
    SuccessReachesGoal(Run(w, es), sc);
  }

  // ---------- ownership ----------

  /** The networks the operator has attached and not detached since the log began. */
  function Owned(log: seq<Call>): set<nat> { Replay(log, {}) }

  function Recorded(st: Status): set<nat> { if st.appliedNet == 0 then {} else {st.appliedNet} }

  ghost predicate Accounted(w: World) {
    Owned(w.host.log) <= Recorded(w.stored)
  }

  /** Nothing goes wrong between an attach and the write of the status that records it. */
  ghost predicate NoFaultAfterAttach(sc: Script, landed: bool) {
    && !sc.beat(AtAttach).fate.Lost?
    && sc.beat(AfterAttach).fate.Works?
    && (sc.writes || landed)
  }

  /** What others do to the world between passes. */
  datatype Outside =
    | Mine(e: Event)
    | Respec(spec: Spec)
    | Recable(nets: seq<nat>)

  ghost predicate Legal(x: Outside) { x.Mine? ==> SteadyEvent(x.e) }

  /** The calls of a pass that reached the cloud. */
  ghost function CallsOf(w: World, sc: Script): seq<Call>
    requires w.host.server.Some? && Steady(sc)
  {
    var log := Pass(w, sc).host.log;
    if |w.host.log| <= |log| then log[|w.host.log|..] else []
  }

  /** The calls end by attaching a network other than the recorded one. */
  ghost predicate AttachesNew(w: World, made: seq<Call>) {
    EndsInAttach(made) && !(w.spec.net.Refers? && w.spec.net.id == w.stored.appliedNet)
  }

  /** The same, told from the state and the faults before the attach: the fetch is answered, no
      type or power call is due, the reference is resolved to a known network that is neither
      recorded nor attached, a recorded one is detached and the server read again, and the
      attach is not refused. */
  ghost predicate AttachDue(w: World, sc: Script)
    requires w.host.server.Some? && Steady(sc)
  {
    && sc.beat(AtFetch).fate.Works?
    && var s := Fetched(w, sc).host.server.value;
    && !Wrong(w.spec, s) && !(w.stored.appliedKind != w.spec.kind && s.power.Off?)
    && w.spec.net.Refers? && w.spec.net.id != w.stored.appliedNet && w.spec.net.id in w.host.networks
    && w.spec.net.id !in w.host.server.value.nets
    && (w.stored.appliedNet != 0 ==> sc.beat(AtDetach).fate.Works? && sc.beat(AfterDetach).fate.Works?)
    && !sc.beat(AtAttach).fate.Refused?
  }

  /** If the pass is to attach such a network, nothing goes wrong after it. */
  ghost predicate Keeps(w: World, sc: Script, landed: bool)
    requires w.host.server.Some? && Steady(sc)
  {
    AttachDue(w, sc) ==> NoFaultAfterAttach(sc, landed)
  }

  ghost function StepOutside(w: World, x: Outside): (w': World)
    requires w.host.server.Some? && Legal(x)
    ensures w'.host.server.Some?
  {
    match x
    case Mine(e) => Step(w, e)
    case Respec(spec) => w.(spec := spec)
    case Recable(nets) => w.(host := w.host.(server := Some(w.host.server.value.(nets := nets))))
  }

  ghost predicate LegalRun(xs: seq<Outside>) { forall x :: x in xs ==> Legal(x) }

  ghost function RunOutside(w: World, xs: seq<Outside>): (w': World)
    requires w.host.server.Some? && LegalRun(xs)
    ensures w'.host.server.Some?
    decreases |xs|
  {
    if |xs| == 0 then w
    else
      assert xs[0] in xs;
      RunOutside(StepOutside(w, xs[0]), xs[1..])
  }

  lemma {:induction false} ReplayAppend(log: seq<Call>, made: seq<Call>, nets: set<nat>)
    ensures Replay(log + made, nets) == Replay(made, Replay(log, nets))
    decreases |made|
  {
    if |made| == 0 {
      assert log + made == log;
    } else {
      var n := |made| - 1;
      assert (log + made)[..|log| + n] == log + made[..n];
      ReplayAppend(log, made[..n], nets);
    }
  }

  ghost predicate EndsInAttach(made: seq<Call>) { |made| > 0 && made[|made| - 1].Attach? }

  lemma JoinRecords(h: Host, st: Status, s: Server, net: nat, migrated: bool, sc: Script)
    requires h.server.Some? && Steady(sc)
    requires !sc.beat(AtAttach).fate.Lost? && sc.beat(AfterAttach).fate.Works?
    ensures var j := JoinNetwork(h, st, s, net, migrated, sc);
            j.host.log != h.log ==> j.reply == Got(true) && j.status.appliedNet == net
  {
    assert !sc.beat(AtAttach).drift.Gone? && !sc.beat(AfterAttach).drift.Gone?;
  }

  lemma EnsureRecords(spec: Spec, h: Host, st: Status, s: Server, sc: Script, made: seq<Call>)
    requires h.server == Some(s) && Steady(sc)
    requires !sc.beat(AtAttach).fate.Lost? && sc.beat(AfterAttach).fate.Works?
    requires EnsureNetwork(spec, h, st, s, sc).host.log == h.log + made && EndsInAttach(made)
    ensures var n := EnsureNetwork(spec, h, st, s, sc);
            n.reply == Got(true) && spec.net.Refers? && n.status.appliedNet == spec.net.id
  {
    var n := EnsureNetwork(spec, h, st, s, sc);
    assert n.host.log[|n.host.log| - 1] == made[|made| - 1];
    if Leaves(spec, st) {
      DropFacts(h, st, s, sc);
      var d := DropNetwork(h, st, s, sc);
      assert d.host.log == h.log || d.host.log == h.log + [Detach(st.appliedNet)];
      if spec.net.Refers? && d.reply.Got? {
        JoinRecords(d.host, d.status, d.s, spec.net.id, true, sc);
      }
    } else if spec.net.Refers? {
      JoinRecords(h, st, s, spec.net.id, false, sc);
    }
  }

  lemma AfterNetworkRecords(spec: Spec, n: NetStep, id: nat, sc: Script, landed: bool)
    requires n.reply == Got(true) && (sc.writes || landed)
    ensures var o := AfterNetwork(spec, n, id, sc);
            o.status.appliedNet == n.status.appliedNet && (landed || o.end.Finished?)
  {
  }

  /** The network step of a pass, as its fetch finds the server. */
  ghost function StepOf(w: World, sc: Script): NetStep
    requires w.host.server.Some? && Steady(sc)
  {
    var f := Fetched(w, sc);
    EnsureNetwork(w.spec, f.host, w.stored, f.host.server.value, sc)
  }

  /** A pass whose calls end in an attach got to the network step, which made them all. */
  lemma AttachingPass(w: World, sc: Script, made: seq<Call>)
    requires w.host.server.Some? && Steady(sc)
    requires Networked(w, Pass(w, sc), made) && EndsInAttach(made)
    ensures Pass(w, sc) == AfterNetwork(w.spec, StepOf(w, sc), w.id, sc)
    ensures StepOf(w, sc).host.log == Fetched(w, sc).host.log + made
  {
    assert !sc.beat(AtFetch).drift.Gone?;
    var f := Fetched(w, sc);
    var s := f.host.server.value;
    var o := Pass(w, sc);
    assert o.host.log != w.host.log;
    assert o.host.log[|o.host.log| - 1].Attach?;
    if w.stored.appliedKind != w.spec.kind && s.power.Off? { NotPoweringOn(w, f, s, sc, o); }
    AfterNetworkHost(w.spec, StepOf(w, sc), w.id, sc);
  }

  lemma NotPoweringOn(w: World, f: World, s: Server, sc: Script, o: Outcome)
    requires f.host.server == Some(s) && Steady(sc) && !Wrong(w.spec, s)
    requires w.stored.appliedKind != w.spec.kind && s.power.Off?
    requires o == ReconcileExisting(w.spec, f.host, w.id, w.stored, s, sc)
    ensures o.host.log == f.host.log || o.host.log == f.host.log + [PowerOn]
  {
    PowerUpFacts(w.spec, w.id, f.host, w.stored, s, sc);
  }

  lemma AfterNetworkHost(spec: Spec, n: NetStep, id: nat, sc: Script)
    ensures AfterNetwork(spec, n, id, sc).host == n.host
  {
  }

  /** When an attach reached the cloud and nothing went wrong after it, the status names it. */
  lemma AttachIsRecorded(w: World, sc: Script, landed: bool, made: seq<Call>)
    requires w.host.server.Some? && Steady(sc) && NoFaultAfterAttach(sc, landed)
    ensures var o := Pass(w, sc);
            Networked(w, o, made) && EndsInAttach(made) ==>
              (landed || o.end.Finished?) && made[|made| - 1] == Attach(o.status.appliedNet)
  {
    if Networked(w, Pass(w, sc), made) && EndsInAttach(made) {
      AttachingPass(w, sc, made);
      var h := Fetched(w, sc).host;
      EnsureRecords(w.spec, h, w.stored, h.server.value, sc, made);
      AfterNetworkRecords(w.spec, StepOf(w, sc), w.id, sc, landed);
    }
  }

  /** What the calls of a pass leave owned is recorded before or after it, and after it if they
      end in an attach. */
  lemma CallsKeepAccounts(
      spec: Spec, nets: set<nat>, st: Status, after: Status, t: Server, made: seq<Call>, owned: set<nat>)
    requires owned <= Recorded(st) && NetworkCalls(spec, nets, st, made) && Records(spec, st, after, t, made)
    requires EndsInAttach(made) ==> made[|made| - 1] == Attach(after.appliedNet)
    ensures Replay(made, owned) <= Recorded(after)
    ensures !EndsInAttach(made) ==> Replay(made, owned) <= Recorded(st)
  {
    if |made| == 1 {
      ReplayOne(made[0], owned);
    } else if |made| == 2 {
      ReplayTwo(made[0], made[1], owned);
      ReplayOne(made[0], owned);
      ReplayOne(made[1], owned - {st.appliedNet});
    }
  }

  lemma NetworkedKeepsAccounts(w: World, o: Outcome, made: seq<Call>, landed: bool)
    requires Accounted(w) && Networked(w, o, made)
    requires EndsInAttach(made) ==> (landed || o.end.Finished?) && made[|made| - 1] == Attach(o.status.appliedNet)
    ensures Accounted(AfterPass(w, o, landed))
  {
    ReplayAppend(w.host.log, made, {});
    CallsKeepAccounts(w.spec, w.host.networks, w.stored, o.status, o.host.server.value, made, Owned(w.host.log));
  }

  lemma ShapeKeepsAccounts(w: World, o: Outcome, made: seq<Call>, landed: bool)
    requires Accounted(w)
    requires Waited(w, o) || (|made| == 1 && Turned(w, o, made[0])) || Networked(w, o, made)
    requires Networked(w, o, made) && EndsInAttach(made) ==>
               (landed || o.end.Finished?) && made[|made| - 1] == Attach(o.status.appliedNet)
    ensures Accounted(AfterPass(w, o, landed))
  {
    if Waited(w, o) {
    } else if Networked(w, o, made) {
      NetworkedKeepsAccounts(w, o, made, landed);
    } else {
      ReplayAppend(w.host.log, made, {});
      ReplayOne(made[0], Owned(w.host.log));
    }
  }

  lemma JoinLoses(h: Host, st: Status, s: Server, net: nat, migrated: bool, sc: Script)
    requires h.server.Some? && Steady(sc)
    requires sc.beat(AtAttach).fate.Lost? || !sc.beat(AfterAttach).fate.Works?
    ensures var j := JoinNetwork(h, st, s, net, migrated, sc);
            j.host.log != h.log ==> j.reply.Failed? && j.status == st
  {
    assert !sc.beat(AtAttach).drift.Gone? && !sc.beat(AfterAttach).drift.Gone?;
  }

  lemma EnsureLoses(spec: Spec, h: Host, st: Status, s: Server, sc: Script, made: seq<Call>)
    requires h.server == Some(s) && Steady(sc)
    requires sc.beat(AtAttach).fate.Lost? || !sc.beat(AfterAttach).fate.Works?
    requires EnsureNetwork(spec, h, st, s, sc).host.log == h.log + made && EndsInAttach(made)
    ensures var n := EnsureNetwork(spec, h, st, s, sc);
            n.reply.Failed? && (n.status.appliedNet == st.appliedNet || n.status.appliedNet == 0)
  {
    var n := EnsureNetwork(spec, h, st, s, sc);
    assert n.host.log[|n.host.log| - 1] == made[|made| - 1];
    if Leaves(spec, st) {
      DropFacts(h, st, s, sc);
      var d := DropNetwork(h, st, s, sc);
      assert d.host.log == h.log || d.host.log == h.log + [Detach(st.appliedNet)];
      if spec.net.Refers? && d.reply.Got? {
        JoinLoses(d.host, d.status, d.s, spec.net.id, true, sc);
      }
    } else if spec.net.Refers? {
      JoinLoses(h, st, s, spec.net.id, false, sc);
    }
  }

  lemma AfterNetworkLoses(spec: Spec, n: NetStep, id: nat, sc: Script)
    ensures var o := AfterNetwork(spec, n, id, sc);
            (n.reply.Failed? || !sc.writes ==> !o.end.Finished?) && (n.reply.Failed? ==> o.status == n.status)
  {
  }

  /** When a new network was attached and something went wrong after it, what is stored does
      not name it. */
  lemma AttachIsLost(w: World, sc: Script, landed: bool, made: seq<Call>)
    requires w.host.server.Some? && Steady(sc) && !NoFaultAfterAttach(sc, landed)
    requires Networked(w, Pass(w, sc), made) && AttachesNew(w, made)
    ensures w.spec.net.Refers? && AfterPass(w, Pass(w, sc), landed).stored.appliedNet != w.spec.net.id
  {
    AttachingPass(w, sc, made);
    var h := Fetched(w, sc).host;
    if sc.beat(AtAttach).fate.Lost? || !sc.beat(AfterAttach).fate.Works? {
      EnsureLoses(w.spec, h, w.stored, h.server.value, sc, made);
    }
    AfterNetworkLoses(w.spec, StepOf(w, sc), w.id, sc);
  }

  lemma AttachIsOwned(w: World, o: Outcome, made: seq<Call>)
    requires Networked(w, o, made) && EndsInAttach(made)
    ensures w.spec.net.Refers? && w.spec.net.id in Owned(o.host.log)
  {
    ReplayAppend(w.host.log, made, {});
    var owned, n := Owned(w.host.log), w.spec.net.id;
    if |made| == 1 {
      ReplayOne(Attach(n), owned);
    } else {
      ReplayTwo(Detach(w.stored.appliedNet), Attach(n), owned);
      ReplayOne(Attach(n), Replay([Detach(w.stored.appliedNet)], owned));
    }
  }

  lemma JoinCalls(h: Host, st: Status, s: Server, net: nat, migrated: bool, sc: Script)
    requires h.server.Some? && Steady(sc)
    ensures JoinNetwork(h, st, s, net, migrated, sc).host.log
            == h.log + if net !in s.nets && net in h.networks && !sc.beat(AtAttach).fate.Refused?
                       then [Attach(net)] else []
  {
    assert !sc.beat(AtAttach).drift.Gone? && !sc.beat(AfterAttach).drift.Gone?;
    assert h.log + [] == h.log;
  }

  lemma DropCalls(h: Host, st: Status, s: Server, sc: Script)
    requires h.server.Some? && Steady(sc)
    ensures var d := DropNetwork(h, st, s, sc);
            && d.host.log == h.log + (if sc.beat(AtDetach).fate.Refused? then [] else [Detach(st.appliedNet)])
            && (d.reply.Got? <==> sc.beat(AtDetach).fate.Works? && sc.beat(AfterDetach).fate.Works?)
            && d.host.networks == h.networks
            && (d.reply.Got? ==> forall n :: n in d.s.nets <==> n in h.server.value.nets && n != st.appliedNet)
  {
    assert !sc.beat(AtDetach).drift.Gone? && !sc.beat(AfterDetach).drift.Gone?;
    assert h.log + [] == h.log;
  }

  /** The last network call of a pass that gets to the network step. */
  lemma EnsureAttachesIff(spec: Spec, h: Host, st: Status, s: Server, sc: Script, made: seq<Call>)
    requires h.server == Some(s) && Steady(sc)
    requires EnsureNetwork(spec, h, st, s, sc).host.log == h.log + made
    ensures EndsInAttach(made) && !(spec.net.Refers? && spec.net.id == st.appliedNet)
            <==> && spec.net.Refers? && spec.net.id != st.appliedNet
                 && spec.net.id in h.networks && spec.net.id !in s.nets
                 && (st.appliedNet != 0 ==> sc.beat(AtDetach).fate.Works? && sc.beat(AfterDetach).fate.Works?)
                 && !sc.beat(AtAttach).fate.Refused?
  {
    var log := EnsureNetwork(spec, h, st, s, sc).host.log;
    assert made == log[|h.log|..];
    if st.appliedNet != 0 { DropCalls(h, st, s, sc); }
    if spec.net.Refers? {
      var d := DropNetwork(h, st, s, sc);
      JoinCalls(h, st, s, spec.net.id, false, sc);
      if Leaves(spec, st) && d.reply.Got? { JoinCalls(d.host, d.status, d.s, spec.net.id, true, sc); }
    }
  }

  lemma AttachesNewIff(w: World, sc: Script)
    requires w.host.server.Some? && Steady(sc)
    ensures AttachesNew(w, CallsOf(w, sc)) <==> AttachDue(w, sc)
  {
    assert !sc.beat(AtFetch).drift.Gone?;
    var f, o := Fetched(w, sc), Pass(w, sc);
    var s := f.host.server.value;
    if !sc.beat(AtFetch).fate.Works? {
      assert CallsOf(w, sc) == [];
    } else if Wrong(w.spec, s) {
      var c := MismatchFacts(w.spec, w.id, f.host, w.stored, s, sc);
      NoAttachIn(f, o, c, CallsOf(w, sc));
    } else if w.stored.appliedKind != w.spec.kind && s.power.Off? {
      PowerUpFacts(w.spec, w.id, f.host, w.stored, s, sc);
      NoAttachIn(f, o, PowerOn, CallsOf(w, sc));
    } else {
      var made := StableFacts(w.spec, w.id, f.host, w.stored, s, sc);
      assert CallsOf(w, sc) == made;
      AfterNetworkHost(w.spec, StepOf(w, sc), w.id, sc);
      EnsureAttachesIff(w.spec, f.host, w.stored, s, sc, made);
    }
  }

  lemma NoAttachIn(f: World, o: Outcome, c: Call, made: seq<Call>)
    requires Waited(f, o) || Turned(f, o, c)
    requires made == if |f.host.log| <= |o.host.log| then o.host.log[|f.host.log|..] else []
    ensures !EndsInAttach(made)
  {
  }

  /** One pass, exactly: what is owned stays accounted for if and only if the pass did not
      attach a new network, or nothing went wrong between the attach and its record. */
  lemma AccountedIff(w: World, sc: Script, landed: bool)
    requires w.host.server.Some? && Steady(sc) && Accounted(w)
    ensures Accounted(AfterPass(w, Pass(w, sc), landed)) <==> Keeps(w, sc, landed)
  {
    AttachesNewIff(w, sc);
    var o := Pass(w, sc);
    var made := PassFacts(w, sc);
    if Waited(w, o) {
      assert CallsOf(w, sc) == [];
    } else {
      assert CallsOf(w, sc) == made;
      if !Networked(w, o, made) {
        ShapeKeepsAccounts(w, o, made, landed);
      } else if !AttachesNew(w, made) {
        SameNetworkKeepsAccounts(w, o, made, landed);
      } else if NoFaultAfterAttach(sc, landed) {
        AttachIsRecorded(w, sc, landed, made);
        NetworkedKeepsAccounts(w, o, made, landed);
      } else {
        AttachIsOwned(w, o, made);
        AttachIsLost(w, sc, landed, made);
      }
    }
  }

  lemma SameNetworkKeepsAccounts(w: World, o: Outcome, made: seq<Call>, landed: bool)
    requires Accounted(w) && Networked(w, o, made) && !AttachesNew(w, made)
    ensures Accounted(AfterPass(w, o, landed))
  {
    if EndsInAttach(made) {
      assert made == [Attach(w.spec.net.id)];
      ReplayAppend(w.host.log, made, {});
      ReplayOne(made[0], Owned(w.host.log));
    } else {
      NetworkedKeepsAccounts(w, o, made, landed);
    }
  }

  /** Every pass of the run keeps the accounts. */
  ghost predicate OrderlyRun(w: World, xs: seq<Outside>)
    requires w.host.server.Some? && LegalRun(xs)
    decreases |xs|
  {
    |xs| == 0 ||
    (assert xs[0] in xs;
     && (xs[0].Mine? && xs[0].e.Passed? ==> Keeps(w, xs[0].e.sc, xs[0].e.landed))
     && OrderlyRun(StepOutside(w, xs[0]), xs[1..]))
  }

  /** The accounts are right at every point of the run. */
  ghost predicate AlwaysAccounted(w: World, xs: seq<Outside>)
    requires w.host.server.Some? && LegalRun(xs)
    decreases |xs|
  {
    Accounted(w) && (|xs| == 0 || (assert xs[0] in xs; AlwaysAccounted(StepOutside(w, xs[0]), xs[1..])))
  }

  lemma StepAccountedIff(w: World, x: Outside)
    requires w.host.server.Some? && Legal(x) && Accounted(w)
    ensures Accounted(StepOutside(w, x)) <==> (x.Mine? && x.e.Passed? ==> Keeps(w, x.e.sc, x.e.landed))
  {
    if x.Mine? && x.e.Passed? { AccountedIff(w, x.e.sc, x.e.landed); }
  }

  /** Ownership over runs.  At every point of a run the networks the operator attached and has
      not detached are at most the one the stored status names if and only if no pass that
      attached a new network met a fault after the attach.  All other failures, lost statuses,
      spec changes and networks attached or detached by others are harmless. */
  lemma {:induction false} OwnedIsRecorded(w: World, xs: seq<Outside>)
    requires w.host.server.Some? && Accounted(w) && LegalRun(xs)
    ensures AlwaysAccounted(w, xs) <==> OrderlyRun(w, xs)
    ensures OrderlyRun(w, xs) ==> Accounted(RunOutside(w, xs))
    decreases |xs|
  {
    if |xs| > 0 {
      assert xs[0] in xs;
      StepAccountedIff(w, xs[0]);
      var v := StepOutside(w, xs[0]);
      if Accounted(v) { OwnedIsRecorded(v, xs[1..]); }
    }
  }

  /** A network that is attached, not recorded, and no longer asked for. */
  ghost predicate Leaked(w: World, n: ID) {
    && w.host.server.Some? && w.spec.net.NoRef?
    && n != w.stored.appliedNet && n in Members(w.host.server.value)
  }

  lemma LeakStays(w: World, n: ID, e: Event)
    requires Leaked(w, n) && SteadyEvent(e)
    ensures Leaked(Step(w, e), n)
    ensures w.stored.appliedNet == 0 ==> Untouched(w, Step(w, e))
  {
    if e.Passed? {
      var made := PassFacts(w, e.sc);
      ShapeLeaks(w, n, Pass(w, e.sc), made, e.landed);
    }
  }

  lemma ShapeLeaks(w: World, n: ID, o: Outcome, made: seq<Call>, landed: bool)
    requires Leaked(w, n)
    requires Waited(w, o) || (|made| == 1 && Turned(w, o, made[0])) || Networked(w, o, made)
    ensures o.host.server.Some? && Leaked(AfterPass(w, o, landed), n)
    ensures w.stored.appliedNet == 0 ==> Untouched(w, AfterPass(w, o, landed))
  {
    if Networked(w, o, made) { ReplayOne(Detach(w.stored.appliedNet), Members(w.host.server.value)); }
  }

  /** Nothing is recorded and the networks are as they were. */
  ghost predicate Untouched(w: World, w': World)
    requires w.host.server.Some? && w'.host.server.Some?
  {
    w'.stored.appliedNet == 0 && Members(w'.host.server.value) == Members(w.host.server.value)
  }

  /** Such a network stays attached through every later run; if nothing is recorded at all, no
      network changes. */
  lemma {:induction false} UnrecordedNetworkLeaks(w: World, n: ID, es: seq<Event>)
    requires Leaked(w, n) && SteadyRun(es)
    ensures Leaked(Run(w, es), n)
    ensures w.stored.appliedNet == 0 ==> Untouched(w, Run(w, es))
    decreases |es|
  {
    if |es| > 0 {
      assert es[0] in es;
      LeakStays(w, n, es[0]);
      UnrecordedNetworkLeaks(Step(w, es[0]), n, es[1..]);
    }
  }

  /** A fault of any kind between an attach and its record loses it: the network is attached,
      the status does not name it, and dropping the reference now leaks it. */
  lemma FaultAfterAttachLosesRecord(w: World, sc: Script, landed: bool)
    requires w.host.server.Some? && Steady(sc) && Accounted(w)
    ensures AttachDue(w, sc) && !NoFaultAfterAttach(sc, landed) ==>
              && var w' := AfterPass(w, Pass(w, sc), landed);
              && !Accounted(w') && w.spec.net.Refers?
              && Leaked(w'.(spec := w.spec.(net := NoRef)), w.spec.net.id)
  {
    if AttachDue(w, sc) && !NoFaultAfterAttach(sc, landed) {
      AttachesNewIff(w, sc);
      AccountedIff(w, sc, landed);
      var made := PassFacts(w, sc);
      var o := Pass(w, sc);
      assert CallsOf(w, sc) == if Waited(w, o) then [] else made;
      AttachIsLost(w, sc, landed, made);
      AttachStays(w, o, made);
    }
  }

  /** An input for it: the refresh after a first attach is refused. */
  lemma RefusedRefreshLosesRecord(w: World, sc: Script, landed: bool)
    requires w.host.server.Some? && Steady(sc) && Accounted(w)
    requires w.spec.net.Refers? && w.spec.net.id in w.host.networks && w.stored.appliedNet == 0
    requires var s := w.host.server.value;
             s.kind == w.spec.kind && s.power.Running? && w.spec.net.id !in s.nets
    requires sc.beat(AtFetch).fate.Works? && sc.beat(AtAttach).fate.Works? && sc.beat(AfterAttach).fate.Refused?
    ensures CallsOf(w, sc) == [Attach(w.spec.net.id)]
    ensures !Accounted(AfterPass(w, Pass(w, sc), landed))
  {
    assert !sc.beat(AtFetch).drift.Gone? && !sc.beat(AtAttach).drift.Gone? && !sc.beat(AfterAttach).drift.Gone?;
    assert Pass(w, sc).host.log == w.host.log + [Attach(w.spec.net.id)];
    FaultAfterAttachLosesRecord(w, sc, landed);
  }

  lemma AttachStays(w: World, o: Outcome, made: seq<Call>)
    requires Networked(w, o, made) && EndsInAttach(made)
    ensures w.spec.net.Refers? && w.spec.net.id in Members(o.host.server.value)
  {
    var nets, n := Members(w.host.server.value), w.spec.net.id;
    if |made| == 1 {
      ReplayOne(Attach(n), nets);
    } else {
      ReplayTwo(Detach(w.stored.appliedNet), Attach(n), nets);
      ReplayOne(Attach(n), Replay([Detach(w.stored.appliedNet)], nets));
    }
  }

  // ---------- the Ready condition ----------

  /** After a pass that got as far as the status sync, Ready is true exactly when the server
      has the wanted type and was last seen running, whichever reason the condition keeps. */
  lemma ReadyMeansRunning(w: World, sc: Script)
    requires w.host.server.Some? && Steady(sc) && Pass(w, sc).end == Finished(Synced)
    ensures var o := Pass(w, sc);
            && o.status.ready.Some? && o.host.server.Some?
            && var t := o.host.server.value;
            && (o.status.ready.value.yes <==> t.kind == w.spec.kind && o.status.power.Running?)
            && (o.status.ready.value.yes ==> t.power.Running? && o.status.appliedKind == w.spec.kind)
  {
    assert !sc.beat(AtFetch).drift.Gone?;
    var f := Fetched(w, sc);
    var s := f.host.server.value;
    var made := StableFacts(w.spec, w.id, f.host, w.stored, s, sc);
    var all := EnsureFacts(w.spec, f.host, w.stored, s, sc);
    SettleReady(w.spec, w.id, EnsureNetwork(w.spec, f.host, w.stored, s, sc), sc);
  }

  lemma SettleReady(spec: Spec, id: nat, n: NetStep, sc: Script)
    requires AfterNetwork(spec, n, id, sc).end == Finished(Synced)
    requires n.host.server.Some? && n.s.kind == n.host.server.value.kind
    requires Reaches(n.s.power, n.host.server.value.power)
    ensures var o, t := AfterNetwork(spec, n, id, sc), n.host.server.value;
            && o.host == n.host && o.status.ready.Some?
            && (o.status.ready.value.yes <==> t.kind == spec.kind && o.status.power.Running?)
            && (o.status.ready.value.yes ==> t.power.Running? && o.status.appliedKind == spec.kind)
  {
  }

  // ---------- reading a server that is gone ----------

  /** A power or type call and the refresh whose result is read without a check. */
  datatype Risk = Risk(call: Site, refresh: Site)

  /** The risk a pass over a server in this state runs, if any. */
  function RiskOf(spec: Spec, st: Status, s: Server): Option<Risk> {
    if s.kind != "" && s.kind != spec.kind then
      if s.power.Running? then Some(Risk(AtPowerOff, AfterPowerOff))
      else if s.power.Off? then Some(Risk(AtChange, AfterChange))
      else None
    else if st.appliedKind != spec.kind && s.power.Off? then Some(Risk(AtPowerOn, AfterPowerOn))
    else None
  }

  /** A pass over an existing server reads a missing one exactly if it makes one of the three
      calls, the call works, and others delete the server before the refresh that follows. */
  lemma PanicsIff(spec: Spec, h: Host, id: nat, st: Status, s: Server, sc: Script)
    requires h.server == Some(s)
    ensures ReconcileExisting(spec, h, id, st, s, sc).end.Panicked?
            <==> && RiskOf(spec, st, s).Some?
                 && var r := RiskOf(spec, st, s).value;
                 && sc.beat(r.call).fate.Works? && !sc.beat(r.call).drift.Gone?
                 && sc.beat(r.refresh).fate.Works? && sc.beat(r.refresh).drift.Gone?
  {
    if RiskOf(spec, st, s).None? && !(s.kind != "" && s.kind != spec.kind) {
      NetworkNeverPanics(spec, h, id, st, s, sc);
    }
  }

  lemma NetworkNeverPanics(spec: Spec, h: Host, id: nat, st: Status, s: Server, sc: Script)
    ensures !AfterNetwork(spec, EnsureNetwork(spec, h, st, s, sc), id, sc).end.Panicked?
  {
  }

  /** A witness: power off, everything answered, and the server deleted before the refresh. */
  lemma DeletionMidPassPanics(w: World, sc: Script)
    requires w.host.server.Some? && Wrong(w.spec, w.host.server.value) && w.host.server.value.power.Running?
    requires Clean(sc) && sc.beat(AtFetch).drift.Still? && sc.beat(AtPowerOff).drift.Still?
    requires sc.beat(AfterPowerOff).drift.Gone?
    ensures ReconcileExisting(w.spec, w.host, w.id, w.stored, w.host.server.value, sc).end.Panicked?
  {
    assert sc.beat(AtPowerOff).fate.Works? && sc.beat(AfterPowerOff).fate.Works?;
    PanicsIff(w.spec, w.host, w.id, w.stored, w.host.server.value, sc);
  }
}
