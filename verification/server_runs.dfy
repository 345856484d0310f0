/** Whole runs of the server reconciler: passes that meet any mixture of failing calls, lost
    answers and unstored statuses, interleaved at every call with the cloud's own slow
    transitions. */
module ServerRuns {
  import opened Prelude
  import opened ServerCloud
  import opened ServerController

  datatype World = World(spec: Spec, id: nat, host: Host, stored: Status)

  /** Nobody deletes the server during the pass. */
  ghost predicate Steady(sc: Script) {
    forall site :: !sc.beat(site).drift.Gone?
  }

  /** Every call is answered and the status write succeeds. */
  ghost predicate Clean(sc: Script) {
    sc.writes && forall site :: sc.beat(site).fate.Works?
  }

  /** The pass of a server whose recorded ID is live: fetch it by ID, then reconcile it
      (hcloudserver_controller.go:105-113). */
  ghost function Pass(w: World, sc: Script): Outcome
    requires w.host.server.Some? && Steady(sc)
  {
    var g := HostGet(w.host, sc.beat(AtFetch));
    match g.reply
    case Failed(f) => Outcome(g.host, w.stored, Errored(f))
    case Got(seen) => ReconcileExisting(w.spec, g.host, w.id, w.stored, seen.value, sc)
  }

  // ---------- what one pass can have done ----------

  predicate Reaches(from: Power, to: Power) { from == to || Moves(from, to) }

  function Members(s: Server): set<nat> { Elements(s.nets) }

  /** The networks a list of calls leaves attached, starting from `nets`. */
  function Replay(calls: seq<Call>, nets: set<nat>): set<nat>
    decreases |calls|
  {
    if |calls| == 0 then nets
    else Rewire(calls[|calls| - 1], Replay(calls[..|calls| - 1], nets))
  }

  function Rewire(c: Call, nets: set<nat>): set<nat> {
    match c
    case Attach(n) => nets + {n}
    case Detach(n) => nets - {n}
    case _ => nets
  }

  /** The networks that a successful pass will leave attached: the recorded one goes, the
      target comes, every other network stays. */
  function NetworkGoal(net: Ref, nets: set<nat>, recorded: nat): set<nat> {
    match net
    case NoRef => if recorded == 0 then nets else nets - {recorded}
    case Broken => nets
    case Refers(n) => (if recorded == 0 || recorded == n then nets else nets - {recorded}) + {n}
  }

  /** Same server, its power at most drifted. */
  ghost predicate Kin(a: Host, b: Host) {
    && a.server.Some? && b.server.Some? && a.networks == b.networks
    && var s, t := a.server.value, b.server.value;
    && t.name == s.name && t.kind == s.kind && t.pg == s.pg && Reaches(s.power, t.power)
  }

  /** `b` is `a` after the network calls `made`. */
  ghost predicate Rewired(a: Host, b: Host, made: seq<Call>) {
    && Kin(a, b)
    && b.log == a.log + made
    && Members(b.server.value) == Replay(made, Members(a.server.value))
  }

  ghost predicate Relabelled(a: Status, b: Status) {
    b.appliedKind == a.appliedKind && b.serverID == a.serverID
  }

  /** The recorded network changes only to what is now the case. */
  ghost predicate Records(spec: Spec, st: Status, after: Status, t: Server, made: seq<Call>) {
    || after.appliedNet == st.appliedNet
    || (after.appliedNet == 0 && Leaves(spec, st) && Dropped(st, made))
    || (spec.net.Refers? && after.appliedNet == spec.net.id && after.appliedNet in t.nets
        && (Leaves(spec, st) ==> Dropped(st, made)))
  }

  ghost predicate Dropped(st: Status, made: seq<Call>) { |made| > 0 && made[0] == Detach(st.appliedNet) }

  /** The log records exactly what happened to the networks, and the status what is known of it. */
  ghost predicate NetworkFacts(spec: Spec, h: Host, st: Status, n: NetStep, made: seq<Call>) {
    && Rewired(h, n.host, made)
    && Relabelled(st, n.status)
    && Records(spec, st, n.status, n.host.server.value, made)
    && n.reply != Failed(MustBeOff)
    && var nets, after := Members(h.server.value), Members(n.host.server.value);
    && NetworkGoal(spec.net, after, st.appliedNet) == NetworkGoal(spec.net, nets, st.appliedNet)
    && NetworkGoal(spec.net, after, n.status.appliedNet) == NetworkGoal(spec.net, nets, st.appliedNet)
    && (n.reply.Got? ==>
          && after == NetworkGoal(spec.net, nets, st.appliedNet)
          && n.s.nets == n.host.server.value.nets && n.s.kind == n.host.server.value.kind
          && n.s.pg == n.host.server.value.pg && Reaches(n.s.power, n.host.server.value.power)
          && NetworkSettled(spec, n.host.server.value, n.status))
  }

  lemma ReplayOne(c: Call, nets: set<nat>)
    ensures Replay([c], nets) == Rewire(c, nets)
  {
    assert [c][..0] == [];
  }

  lemma ReplayTwo(c: Call, d: Call, nets: set<nat>)
    ensures Replay([c, d], nets) == Replay([d], Replay([c], nets))
  {
    assert [c, d][..1] == [c];
    ReplayOne(d, Replay([c], nets));
  }

  /** `made` is a network call of this pass that reached the cloud, or nothing. */
  lemma DropFacts(h: Host, st: Status, s: Server, sc: Script)
    requires h.server.Some? && Steady(sc)
    ensures var d := DropNetwork(h, st, s, sc);
            && (Rewired(h, d.host, []) || Rewired(h, d.host, [Detach(st.appliedNet)]))
            && (d.reply.Failed? ==> d.status == st)
            && (d.reply.Got? ==>
                  && Rewired(h, d.host, [Detach(st.appliedNet)])
                  && d.reply.value && d.status == st.(appliedNet := 0) && Some(d.s) == d.host.server)
  {
    ReplayOne(Detach(st.appliedNet), Members(h.server.value));
    var d := HostDetach(h, st.appliedNet, sc.beat(AtDetach));
    assert !sc.beat(AtDetach).drift.Gone? && !sc.beat(AfterDetach).drift.Gone?;
    assert d.host.server.Some?;
  }

  lemma AttachFacts(h: Host, net: nat, b: Beat)
    requires h.server.Some? && !b.drift.Gone?
    ensures var a := HostAttach(h, net, b);
            && (Rewired(h, a.host, []) || (Rewired(h, a.host, [Attach(net)]) && net in h.networks))
            && (a.reply.Got? ==> Rewired(h, a.host, [Attach(net)]) && net in a.host.server.value.nets)
  {
    var nets := h.server.value.nets;
    ReplayOne(Attach(net), Members(h.server.value));
    SortMembers(LeNat, nets + [net]);
    var a := HostAttach(h, net, b);
    forall k ensures k in Members(a.host.server.value) ==> k in nets || k == net {}
    if a.host.log != h.log {
      assert Members(a.host.server.value) == Members(h.server.value) + {net};
    }
  }

  lemma LookFacts(a: Host, h: Host, made: seq<Call>, b: Beat)
    requires Rewired(a, h, made) && !b.drift.Gone?
    ensures Rewired(a, HostGet(h, b).host, made) && HostGet(h, b).host.server.value.nets == h.server.value.nets
  {
    ReachesTwice(a.server.value.power, h.server.value.power, HostGet(h, b).host.server.value.power);
  }

  lemma JoinFacts(h: Host, st: Status, s: Server, net: nat, migrated: bool, sc: Script)
    requires h.server == Some(s) && Steady(sc)
    ensures var j := JoinNetwork(h, st, s, net, migrated, sc);
            && (Rewired(h, j.host, []) || (Rewired(h, j.host, [Attach(net)]) && net in h.networks))
            && Relabelled(st, j.status)
            && (j.reply.Failed? ==> j.status == st && net !in s.nets)
            && (j.reply.Got? ==>
                  && j.status.appliedNet == net && Some(j.s) == j.host.server
                  && net in j.s.nets
                  && Rewired(h, j.host, if j.reply.value then [Attach(net)] else []))
  {
    if net !in s.nets {
      assert !sc.beat(AtAttach).drift.Gone? && !sc.beat(AfterAttach).drift.Gone?;
      AttachFacts(h, net, sc.beat(AtAttach));
      var a := HostAttach(h, net, sc.beat(AtAttach));
      if a.reply.Got? { LookFacts(h, a.host, [Attach(net)], sc.beat(AfterAttach)); }
    }
  }

  /** Which network calls a pass makes. */
  ghost predicate NetworkCalls(spec: Spec, networks: set<nat>, st: Status, made: seq<Call>) {
    || made == []
    || (made == [Detach(st.appliedNet)] && Leaves(spec, st))
    || (Joins(spec, networks) && made == [Attach(spec.net.id)])
    || (Joins(spec, networks) && Leaves(spec, st) && made == [Detach(st.appliedNet), Attach(spec.net.id)])
  }

  ghost predicate Joins(spec: Spec, networks: set<nat>) { spec.net.Refers? && spec.net.id in networks }

  ghost predicate Leaves(spec: Spec, st: Status) {
    st.appliedNet != 0 && !spec.net.Broken? && !(spec.net.Refers? && spec.net.id == st.appliedNet)
  }

  lemma EnsureDropFacts(spec: Spec, h: Host, st: Status, s: Server, sc: Script) returns (made: seq<Call>)
    requires h.server == Some(s) && Steady(sc) && Leaves(spec, st) && spec.net.NoRef?
    ensures NetworkFacts(spec, h, st, EnsureNetwork(spec, h, st, s, sc), made)
    ensures NetworkCalls(spec, h.networks, st, made)
  {
    DropFacts(h, st, s, sc);
    ReplayOne(Detach(st.appliedNet), Members(s));
    made := if Rewired(h, DropNetwork(h, st, s, sc).host, []) then [] else [Detach(st.appliedNet)];
  }

  lemma EnsureJoinFacts(spec: Spec, h: Host, st: Status, s: Server, sc: Script) returns (made: seq<Call>)
    requires h.server == Some(s) && Steady(sc) && !Leaves(spec, st) && spec.net.Refers?
    ensures NetworkFacts(spec, h, st, EnsureNetwork(spec, h, st, s, sc), made)
    ensures NetworkCalls(spec, h.networks, st, made)
  {
    JoinFacts(h, st, s, spec.net.id, false, sc);
    ReplayOne(Attach(spec.net.id), Members(s));
    made := if Rewired(h, JoinNetwork(h, st, s, spec.net.id, false, sc).host, []) then [] else [Attach(spec.net.id)];
  }

  lemma RewiredTwice(a: Host, b: Host, c: Host, x: Call, y: Call)
    requires Rewired(a, b, [x]) && Rewired(b, c, [y]) && Reaches(a.server.value.power, c.server.value.power)
    ensures Rewired(a, c, [x, y])
  {
    ReplayTwo(x, y, Members(a.server.value));
    assert [x, y] == [x] + [y];
  }

  lemma ReachesTwice(p: Power, q: Power, r: Power)
    requires Reaches(p, q) && Reaches(q, r)
    ensures Reaches(p, r)
  {
  }

  lemma EnsureMigrateFacts(spec: Spec, h: Host, st: Status, s: Server, sc: Script) returns (made: seq<Call>)
    requires h.server == Some(s) && Steady(sc) && Leaves(spec, st) && spec.net.Refers?
    ensures NetworkFacts(spec, h, st, EnsureNetwork(spec, h, st, s, sc), made)
    ensures NetworkCalls(spec, h.networks, st, made)
  {
    var old', net := st.appliedNet, spec.net.id;
    DropFacts(h, st, s, sc);
    ReplayOne(Detach(old'), Members(s));
    var d := DropNetwork(h, st, s, sc);
    if d.reply.Failed? {
      made := if Rewired(h, d.host, []) then [] else [Detach(old')];
    } else {
      JoinFacts(d.host, d.status, d.s, net, true, sc);
      var j := JoinNetwork(d.host, d.status, d.s, net, true, sc);
      ReplayOne(Attach(net), Members(d.s));
      ReachesTwice(s.power, d.s.power, j.host.server.value.power);
      if Rewired(d.host, j.host, []) {
        made := [Detach(old')];
      } else {
        RewiredTwice(h, d.host, j.host, Detach(old'), Attach(net));
        made := [Detach(old'), Attach(net)];
        ReplayTwo(Detach(old'), Attach(net), Members(s));
      }
    }
  }

  lemma EnsureFacts(spec: Spec, h: Host, st: Status, s: Server, sc: Script) returns (made: seq<Call>)
    requires h.server == Some(s) && Steady(sc)
    ensures NetworkFacts(spec, h, st, EnsureNetwork(spec, h, st, s, sc), made)
    ensures NetworkCalls(spec, h.networks, st, made)
  {
    if Leaves(spec, st) && spec.net.NoRef? {
      made := EnsureDropFacts(spec, h, st, s, sc);
    } else if Leaves(spec, st) {
      made := EnsureMigrateFacts(spec, h, st, s, sc);
    } else if spec.net.Refers? {
      made := EnsureJoinFacts(spec, h, st, s, sc);
    } else {
      made := [];
    }
  }

  // ---------- the three shapes of a pass ----------

  ghost predicate Wrong(spec: Spec, s: Server) { s.kind != "" && s.kind != spec.kind }

  /** No call reached the cloud; nothing was learnt that a later pass acts on. */
  ghost predicate Waited(w: World, o: Outcome) {
    && Kin(w.host, o.host) && o.host.log == w.host.log
    && o.host.server.value.nets == w.host.server.value.nets
    && o.status.appliedKind == w.stored.appliedKind && o.status.appliedNet == w.stored.appliedNet
  }

  /** One power or type call, made in the one state in which it is due. */
  ghost predicate Turned(w: World, o: Outcome, c: Call) {
    && w.host.server.Some? && o.host.server.Some?
    && o.host.networks == w.host.networks && o.host.log == w.host.log + [c]
    && o.status.appliedKind == w.stored.appliedKind && o.status.appliedNet == w.stored.appliedNet
    && var s, t := w.host.server.value, o.host.server.value;
    && t.name == s.name && t.pg == s.pg && t.nets == s.nets
    && match c
       case PowerOff =>
         Wrong(w.spec, s) && Reaches(s.power, Running) && t.kind == s.kind && (t.power.Stopping? || t.power.Off?)
       case ChangeType(k, u) =>
         && Wrong(w.spec, s) && Reaches(s.power, Off)
         && k == w.spec.kind && u == w.spec.upgradeDisk && t.kind == k && t.power.Off?
       case PowerOn =>
         && !Wrong(w.spec, s) && w.stored.appliedKind != w.spec.kind && Reaches(s.power, Off)
         && t.kind == s.kind && (t.power.Starting? || t.power.Running?)
       case _ => false
  }

  ghost predicate Placed(spec: Spec, s: Server) {
    spec.pg.NoRef? || (spec.pg.Refers? && spec.pg.id == s.pg)
  }

  ghost predicate Synchronised(w: World, o: Outcome)
    requires o.host.server.Some?
  {
    var t := o.host.server.value;
    && t.kind == w.spec.kind && t.power.Running? && Placed(w.spec, t)
    && NetworkSettled(w.spec, t, o.status)
  }

  /** Network calls only. */
  ghost predicate Networked(w: World, o: Outcome, made: seq<Call>) {
    && Rewired(w.host, o.host, made)
    && NetworkCalls(w.spec, w.host.networks, w.stored, made)
    && var s, t := w.host.server.value, o.host.server.value;
    && !Wrong(w.spec, s)
    && Records(w.spec, w.stored, o.status, t, made)
    && NetworkGoal(w.spec.net, Members(t), w.stored.appliedNet)
       == NetworkGoal(w.spec.net, Members(t), o.status.appliedNet)
       == NetworkGoal(w.spec.net, Members(s), w.stored.appliedNet)
    && (o.end.Finished? ==>
          Members(t) == NetworkGoal(w.spec.net, Members(s), w.stored.appliedNet) && NetworkSettled(w.spec, t, o.status))
    && (o.status.appliedKind == w.stored.appliedKind || (o.status.appliedKind == w.spec.kind && Synchronised(w, o)))
  }

  /** The world as the pass finds it once its fetch has answered. */
  ghost function Fetched(w: World, sc: Script): World { w.(host := HostGet(w.host, sc.beat(AtFetch)).host) }

  lemma PowerDownFacts(spec: Spec, id: nat, h: Host, st: Status, s: Server, sc: Script)
    requires h.server == Some(s) && Steady(sc) && Wrong(spec, s) && s.power.Running?
    ensures var o, w := TypeMismatch(spec, h, id, st, s, sc), World(spec, id, h, st);
            && (Waited(w, o) || Turned(w, o, PowerOff))
            && !o.end.Panicked? && o.end != Errored(MustBeOff)
            && (Clean(sc) ==> Turned(w, o, PowerOff) && o.end.Finished?)
  {
    assert !sc.beat(AtPowerOff).drift.Gone? && !sc.beat(AfterPowerOff).drift.Gone?;
  }

  lemma ChangeFacts(spec: Spec, id: nat, h: Host, st: Status, s: Server, sc: Script)
    requires h.server == Some(s) && Steady(sc) && Wrong(spec, s) && s.power.Off?
    ensures var o, w := TypeMismatch(spec, h, id, st, s, sc), World(spec, id, h, st);
            var c := ChangeType(spec.kind, spec.upgradeDisk);
            && (Waited(w, o) || Turned(w, o, c))
            && !o.end.Panicked? && o.end != Errored(MustBeOff)
            && (Clean(sc) ==> Turned(w, o, c) && o.end.Finished?)
  {
    assert !sc.beat(AtChange).drift.Gone? && !sc.beat(AfterChange).drift.Gone?;
  }

  lemma MismatchFacts(spec: Spec, id: nat, h: Host, st: Status, s: Server, sc: Script) returns (c: Call)
    requires h.server == Some(s) && Steady(sc) && Wrong(spec, s)
    ensures var o, w := TypeMismatch(spec, h, id, st, s, sc), World(spec, id, h, st);
            && (Waited(w, o) || Turned(w, o, c))
            && !o.end.Panicked? && o.end != Errored(MustBeOff)
            && (Clean(sc) && (s.power.Running? || s.power.Off?) ==> Turned(w, o, c) && o.end.Finished?)
  {
    c := if s.power.Running? then PowerOff else ChangeType(spec.kind, spec.upgradeDisk);
    if s.power.Running? {
      PowerDownFacts(spec, id, h, st, s, sc);
    } else if s.power.Off? {
      ChangeFacts(spec, id, h, st, s, sc);
    }
  }

  lemma PowerUpFacts(spec: Spec, id: nat, h: Host, st: Status, s: Server, sc: Script)
    requires h.server == Some(s) && Steady(sc) && !Wrong(spec, s) && st.appliedKind != spec.kind && s.power.Off?
    ensures var o, w := ReconcileExisting(spec, h, id, st, s, sc), World(spec, id, h, st);
            && (Waited(w, o) || Turned(w, o, PowerOn))
            && !o.end.Panicked? && o.end != Errored(MustBeOff)
            && (Clean(sc) ==> Turned(w, o, PowerOn) && o.end.Finished?)
  {
    assert !sc.beat(AtPowerOn).drift.Gone? && !sc.beat(AfterPowerOn).drift.Gone?;
  }

  lemma SettleFacts(spec: Spec, id: nat, n: NetStep, sc: Script)
    requires n.host.server.Some?
    requires n.s.kind == n.host.server.value.kind && n.s.pg == n.host.server.value.pg
    requires Reaches(n.s.power, n.host.server.value.power) && NetworkSettled(spec, n.host.server.value, n.status)
    ensures var o, t := Settle(spec, n.host, id, n.status, n.s, sc), n.host.server.value;
            && o.host == n.host && o.status.appliedNet == n.status.appliedNet
            && !o.end.Panicked? && o.end != Errored(MustBeOff)
            && (o.status.appliedKind == n.status.appliedKind
                || (o.status.appliedKind == spec.kind && t.kind == spec.kind && t.power.Running? && Placed(spec, t)))
            && (Clean(sc) && Placed(spec, t) && t.kind == spec.kind && n.s.power.Running? ==>
                  o.end.Finished? && o.status.appliedKind == spec.kind)
  {
  }

  lemma AfterNetworkFacts(spec: Spec, id: nat, h: Host, st: Status, n: NetStep, made: seq<Call>, sc: Script)
    requires h.server.Some? && !Wrong(spec, h.server.value)
    requires NetworkFacts(spec, h, st, n, made) && NetworkCalls(spec, h.networks, st, made)
    ensures var o, w := AfterNetwork(spec, n, id, sc), World(spec, id, h, st);
            && Networked(w, o, made)
            && !o.end.Panicked? && o.end != Errored(MustBeOff)
  {
    if n.reply == Got(false) { SettleFacts(spec, id, n, sc); }
  }

  lemma StableFacts(spec: Spec, id: nat, h: Host, st: Status, s: Server, sc: Script) returns (made: seq<Call>)
    requires h.server == Some(s) && Steady(sc) && !Wrong(spec, s) && !(st.appliedKind != spec.kind && s.power.Off?)
    ensures var o, w := ReconcileExisting(spec, h, id, st, s, sc), World(spec, id, h, st);
            && Networked(w, o, made)
            && !o.end.Panicked? && o.end != Errored(MustBeOff)
  {
    made := EnsureFacts(spec, h, st, s, sc);
    AfterNetworkFacts(spec, id, h, st, EnsureNetwork(spec, h, st, s, sc), made, sc);
  }

  /** With every call answered, a right-typed server that is not off gets its network in one
      pass and its status in the next one at the latest. */
  lemma CleanStableFacts(spec: Spec, id: nat, h: Host, st: Status, s: Server, sc: Script)
    requires h.server == Some(s) && Steady(sc) && Clean(sc)
    requires s.kind == spec.kind && s.power.Running?
    requires Usable(World(spec, id, h, st))
    ensures var o, w := ReconcileExisting(spec, h, id, st, s, sc), World(spec, id, h, st);
            && o.end.Finished?
            && if NetworkPending(spec, s, st)
               then o.host.server.Some? && !NetworkPending(spec, o.host.server.value, o.status)
               else o.status.appliedKind == spec.kind
  {
    var made := EnsureFacts(spec, h, st, s, sc);
    var n := EnsureNetwork(spec, h, st, s, sc);
    assert !sc.beat(AtDetach).drift.Gone? && !sc.beat(AfterDetach).drift.Gone?;
    assert !sc.beat(AtAttach).drift.Gone? && !sc.beat(AfterAttach).drift.Gone?;
    assert sc.beat(AtDetach).fate.Works? && sc.beat(AfterDetach).fate.Works?;
    assert sc.beat(AtAttach).fate.Works? && sc.beat(AfterAttach).fate.Works?;
    if n.reply == Got(false) { SettleFacts(spec, id, n, sc); }
  }

  /** Every pass over a live server has one of three shapes, never reads a missing server and
      never asks for a type change of a server that is not off. */
  lemma PassFacts(w: World, sc: Script) returns (made: seq<Call>)
    requires w.host.server.Some? && Steady(sc)
    ensures var o := Pass(w, sc);
            && (Waited(w, o) || (|made| == 1 && Turned(w, o, made[0])) || Networked(w, o, made))
            && !o.end.Panicked? && o.end != Errored(MustBeOff)
  {
    assert !sc.beat(AtFetch).drift.Gone?;
    var f := Fetched(w, sc);
    var s, o := f.host.server.value, Pass(w, sc);
    made := [];
    if HostGet(w.host, sc.beat(AtFetch)).reply.Failed? {
    } else if Wrong(w.spec, s) {
      var c := MismatchFacts(w.spec, w.id, f.host, w.stored, s, sc);
      made := [c];
      TurnAfterFetch(w, f, o, c);
    } else if w.stored.appliedKind != w.spec.kind && s.power.Off? {
      PowerUpFacts(w.spec, w.id, f.host, w.stored, s, sc);
      made := [PowerOn];
      TurnAfterFetch(w, f, o, PowerOn);
    } else {
      made := StableFacts(w.spec, w.id, f.host, w.stored, s, sc);
      ReachesTwice(w.host.server.value.power, s.power, o.host.server.value.power);
      assert Networked(w, o, made);
    }
  }

  /** The fetch that opens a pass may show a server that has drifted. */
  lemma TurnAfterFetch(w: World, f: World, o: Outcome, c: Call)
    requires Kin(w.host, f.host) && f == w.(host := f.host) && f.host.log == w.host.log
    requires f.host.server.value.nets == w.host.server.value.nets
    requires Waited(f, o) || Turned(f, o, c)
    ensures Waited(w, o) || Turned(w, o, c)
  {
    var p, q := w.host.server.value.power, f.host.server.value.power;
    if Waited(f, o) {
      ReachesTwice(p, q, o.host.server.value.power);
    } else {
      forall r | Reaches(q, r) ensures Reaches(p, r) { ReachesTwice(p, q, r); }
    }
  }

  // ---------- runs ----------

  /** One thing that happens in a run.  `landed` says whether the status in memory at the end
      of the pass reaches the store although the pass failed; a crash is a failure that does not. */
  datatype Event = Moved(to: Power) | Passed(sc: Script, landed: bool)

  ghost predicate SteadyEvent(e: Event) { e.Passed? ==> Steady(e.sc) }

  ghost predicate SteadyRun(es: seq<Event>) { forall e :: e in es ==> SteadyEvent(e) }

  function AfterPass(w: World, o: Outcome, landed: bool): World {
    w.(host := o.host, stored := if landed || o.end.Finished? then o.status else w.stored)
  }

  ghost function Step(w: World, e: Event): (w': World)
    requires w.host.server.Some? && SteadyEvent(e)
    ensures w'.host.server.Some? && w'.spec == w.spec && w'.id == w.id
  {
    match e
    case Moved(p) => w.(host := Drifted(w.host, ServerCloud.To(p)))
    case Passed(sc, landed) =>
      assert Pass(w, sc).host.server.Some? by { var made := PassFacts(w, sc); }
      AfterPass(w, Pass(w, sc), landed)
  }

  ghost function Run(w: World, es: seq<Event>): (w': World)
    requires w.host.server.Some? && SteadyRun(es)
    ensures w'.host.server.Some? && w'.spec == w.spec && w'.id == w.id
    decreases |es|
  {
    if |es| == 0 then w
    else
      assert es[0] in es;
      Run(Step(w, es[0]), es[1..])
  }

  // ---------- what a run aims at ----------

  ghost predicate NetworkSettled(spec: Spec, s: Server, st: Status) {
    match spec.net
    case NoRef => st.appliedNet == 0
    case Broken => false
    case Refers(n) => n in s.nets && st.appliedNet == n
  }

  ghost predicate Converged(w: World) {
    && w.host.server.Some?
    && var s := w.host.server.value;
    && s.kind == w.spec.kind && s.power.Running?
    && w.stored.appliedKind == w.spec.kind
    && NetworkSettled(w.spec, s, w.stored)
  }

  /** The references of the spec can be satisfied for this server.  A placement group is fixed
      when a server is created, so a server in another group never satisfies it. */
  ghost predicate Usable(w: World)
    requires w.host.server.Some?
  {
    && var s := w.host.server.value;
    && (match w.spec.pg case NoRef => true case Broken => false case Refers(g) => g == s.pg)
    && (match w.spec.net case NoRef => true case Broken => false
        case Refers(n) => n in w.host.networks || n in s.nets)
  }

  /** The cloud reports a type, and a power state the controller knows a way out of. */
  predicate Changeable(s: Server) { s.kind != "" && !s.power.Deleting? && !s.power.Unknown? }

  /** A server in the middle of a spec-driven type change, or done with it. */
  ghost predicate MidResize(w: World) {
    && w.host.server.Some? && w.spec.kind != "" && Changeable(w.host.server.value)
    && (w.stored.appliedKind != w.spec.kind || Converged(w))
  }

  ghost function Rank(spec: Spec, s: Server): nat {
    if s.kind != spec.kind then
      match s.power
      case Running => 7
      case Stopping => 6
      case Off => 5
      case _ => 8
    else
      match s.power
      case Off => 3
      case Starting => 2
      case Running => 1
      case _ => 4
  }

  /** A network call is still to be made. */
  ghost predicate NetworkPending(spec: Spec, s: Server, st: Status) {
    match spec.net
    case NoRef => st.appliedNet != 0
    case Broken => false
    case Refers(n) => n !in s.nets
  }

  /** Lexicographic: how far the power cycle is, then whether the network is still to do. */
  ghost function Measure(w: World): (m: nat)
    requires w.host.server.Some?
    ensures m <= 17
  {
    var s := w.host.server.value;
    if w.stored.appliedKind == w.spec.kind then 0
    else 2 * Rank(w.spec, s) + if NetworkPending(w.spec, s, w.stored) then 1 else 0
  }

  // ---------- one event ----------

  lemma WaitedKeeps(w: World, o: Outcome, landed: bool)
    requires MidResize(w) && Usable(w) && Waited(w, o)
    ensures var w' := AfterPass(w, o, landed); MidResize(w') && Usable(w') && Measure(w') <= Measure(w)
  {
  }

  lemma TurnedKeeps(w: World, o: Outcome, c: Call, landed: bool)
    requires MidResize(w) && Usable(w) && Turned(w, o, c)
    ensures var w' := AfterPass(w, o, landed); MidResize(w') && Usable(w') && Measure(w') < Measure(w)
  {
  }

  /** Network calls never cost the server the network the spec asks for. */
  lemma TargetStays(w: World, o: Outcome, made: seq<Call>)
    requires Networked(w, o, made) && w.spec.net.Refers?
    requires w.spec.net.id in w.host.server.value.nets
    ensures w.spec.net.id in o.host.server.value.nets
  {
    var n, old', nets := w.spec.net.id, w.stored.appliedNet, Members(w.host.server.value);
    ReplayOne(Attach(n), nets);
    ReplayOne(Detach(old'), nets);
    ReplayTwo(Detach(old'), Attach(n), nets);
    ReplayOne(Attach(n), nets - {old'});
    assert n in nets;
    assert n in Members(o.host.server.value);
  }

  lemma NetworkedKeeps(w: World, o: Outcome, made: seq<Call>, landed: bool)
    requires MidResize(w) && Usable(w) && Networked(w, o, made)
    ensures var w' := AfterPass(w, o, landed); MidResize(w') && Usable(w') && Measure(w') <= Measure(w)
  {
    if w.spec.net.Refers? && w.spec.net.id in w.host.server.value.nets { TargetStays(w, o, made); }
  }
}
