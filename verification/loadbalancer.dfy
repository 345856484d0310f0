/** The load-balancer reconciler (internal/controller/hcloudloadbalancer_controller.go:126-323):
    certificates first, then targets attached before any is detached, then the services. */
module LoadBalancers {
  import opened Prelude
  import Services

  // ---------- certificates ----------

  /** What a pass can see of certificates: the recorded ID of each object (zero if none), which
      cloud certificates exist and are ready, and the objects that cannot be read. */
  datatype Certificates = Certificates(objects: map<string, nat>, ready: map<nat, bool>, unreadable: set<string>)

  predicate IsReady(env: Certificates, ref: string) {
    && ref in env.objects && env.objects[ref] != 0
    && env.objects[ref] in env.ready && env.ready[env.objects[ref]]
  }

  datatype Resolved = Resolved(ids: seq<nat>, pending: bool)

  /** The references of one service, in order; empty names are skipped. */
  function Resolve(env: Certificates, refs: seq<string>): Reply<Resolved>
    decreases |refs|
  {
    if |refs| == 0 then Got(Resolved([], false))
    else
      var n := |refs| - 1;
      match Resolve(env, refs[..n])
      case Failed(f) => Failed(f)
      case Got(r) =>
        if refs[n] == "" then Got(r)
        else if refs[n] in env.unreadable then Failed(Unresolved)
        else if IsReady(env, refs[n]) then Got(Resolved(r.ids + [env.objects[refs[n]]], r.pending))
        else Got(Resolved(r.ids, true))
  }

  /** The references that count. */
  function Named(refs: seq<string>): seq<string> { Without(refs, "") }

  /** Each named object exists and has a recorded ID, and the certificate of that ID is in the
      cloud and ready. */
  ghost predicate ReadyAll(env: Certificates, named: seq<string>) {
    && (forall i :: 0 <= i < |named| ==> named[i] in env.objects && env.objects[named[i]] > 0)
    && (forall i :: 0 <= i < |named| ==> env.objects[named[i]] in env.ready && env.ready[env.objects[named[i]]])
  }

  /** Nothing is pending exactly if every reference is ready, and then the IDs are the recorded
      ones of all references in order. */
  lemma {:induction false} ResolvedIff(env: Certificates, refs: seq<string>)
    requires Resolve(env, refs).Got?
    ensures var r, named := Resolve(env, refs).value, Named(refs);
            && (!r.pending <==> ReadyAll(env, named))
            && (!r.pending ==> |r.ids| == |named| && forall i :: 0 <= i < |named| ==> r.ids[i] == env.objects[named[i]])
    decreases |refs|
  {
    if |refs| > 0 {
      var n := |refs| - 1;
      ResolvedIff(env, refs[..n]);
      var before, named := Named(refs[..n]), Named(refs);
      if refs[n] == "" {
        assert named == before;
      } else {
        assert named == before + [refs[n]];
        OneMore(env, before, refs[n]);
      }
    }
  }

  lemma OneMore(env: Certificates, before: seq<string>, ref: string)
    ensures ReadyAll(env, before + [ref]) <==> ReadyAll(env, before) && IsReady(env, ref)
  {
    var named := before + [ref];
    assert named[|before|] == ref;
    forall i | 0 <= i < |before| ensures named[i] == before[i] {}
  }

  /** The list cannot be resolved exactly if one of its references cannot be read. */
  lemma {:induction false} ResolveFailsIff(env: Certificates, refs: seq<string>)
    ensures Resolve(env, refs).Failed? <==> exists i :: 0 <= i < |Named(refs)| && Named(refs)[i] in env.unreadable
    decreases |refs|
  {
    if |refs| > 0 {
      var n := |refs| - 1;
      ResolveFailsIff(env, refs[..n]);
      var before, named := Named(refs[..n]), Named(refs);
      assert named == before + if refs[n] == "" then [] else [refs[n]];
      assert forall i :: 0 <= i < |before| ==> named[i] == before[i];
      if refs[n] != "" && refs[n] in env.unreadable { assert named[|before|] in env.unreadable; }
    }
  }

  // ---------- services ----------

  datatype CheckSpec = CheckSpec(
    protocol: string, port: Option<int>, intervalSeconds: Option<int>, timeoutSeconds: Option<int>,
    retries: Option<int>, http: Option<Services.HTTPCheck>)

  datatype ServiceSpec = ServiceSpec(
    protocol: string, listen: int, dest: int, proxy: Option<bool>, certificateRefs: seq<string>,
    check: Option<CheckSpec>)

  function Seconds(n: Option<int>): Option<int> { if n.Some? then Some(n.value * 1_000_000_000) else None }

  function CheckFromSpec(c: CheckSpec): Services.Check {
    Services.Check(c.protocol, c.port, Seconds(c.intervalSeconds), Seconds(c.timeoutSeconds), c.retries, c.http)
  }

  function ServiceFromSpec(s: ServiceSpec, ids: seq<nat>): Services.Service {
    Services.Service(s.protocol, s.listen, s.dest, s.proxy == Some(true), ids,
                     if s.check.Some? then Some(CheckFromSpec(s.check.value)) else None)
  }

  /** A time in the cloud's nanoseconds is the spec's time in seconds. */
  predicate InNanoseconds(time: Option<int>, seconds: Option<int>) {
    (time == None && seconds == None) || (seconds.Some? && time == Some(seconds.value * 1_000_000_000))
  }

  /** The service says what the spec says, certificates aside. */
  predicate Says(svc: Services.Service, spec: ServiceSpec) {
    && svc.protocol == spec.protocol && svc.listen == spec.listen && svc.dest == spec.dest
    && (svc.proxy <==> spec.proxy == Some(true))
    && (svc.check == None <==> spec.check == None)
    && (svc.check.Some? && spec.check.Some? ==>
          && var c, want := svc.check.value, spec.check.value;
          && c.protocol == want.protocol && c.port == want.port && c.retries == want.retries && c.http == want.http
          && InNanoseconds(c.interval, want.intervalSeconds) && InNanoseconds(c.timeout, want.timeoutSeconds))
  }

  datatype Desired = Desired(services: seq<Services.Service>, pending: bool)

  function FromSpecs(env: Certificates, specs: seq<ServiceSpec>): Reply<Desired>
    decreases |specs|
  {
    if |specs| == 0 then Got(Desired([], false))
    else
      var n := |specs| - 1;
      match FromSpecs(env, specs[..n])
      case Failed(f) => Failed(f)
      case Got(d) =>
        match Resolve(env, specs[n].certificateRefs)
        case Failed(f) => Failed(f)
        case Got(r) => Got(Desired(d.services + [ServiceFromSpec(specs[n], r.ids)], d.pending || r.pending))
  }

  /** Every certificate the spec names is ready. */
  ghost predicate AllReady(env: Certificates, specs: seq<ServiceSpec>) {
    forall k :: 0 <= k < |specs| ==> ReadyAll(env, Named(specs[k].certificateRefs))
  }

  /** The service says what the spec says and carries the recorded IDs of all its certificates,
      in order, each of a certificate that is ready. */
  ghost predicate FullyConfigured(env: Certificates, spec: ServiceSpec, svc: Services.Service) {
    var named := Named(spec.certificateRefs);
    && Says(svc, spec) && ReadyAll(env, named)
    && |svc.certs| == |named| && forall i :: 0 <= i < |named| ==> svc.certs[i] == env.objects[named[i]]
  }

  lemma SpecSays(spec: ServiceSpec, ids: seq<nat>)
    ensures Says(ServiceFromSpec(spec, ids), spec) && ServiceFromSpec(spec, ids).certs == ids
  {
  }

  /** The services are not pending exactly if every certificate is ready, and then no listener
      is half-configured. */
  lemma {:induction false} ListenersComplete(env: Certificates, specs: seq<ServiceSpec>)
    requires FromSpecs(env, specs).Got?
    ensures var d := FromSpecs(env, specs).value;
            && |d.services| == |specs| && (forall k :: 0 <= k < |specs| ==> Says(d.services[k], specs[k]))
            && (!d.pending <==> AllReady(env, specs))
            && (!d.pending ==> forall k :: 0 <= k < |specs| ==> FullyConfigured(env, specs[k], d.services[k]))
    decreases |specs|
  {
    if |specs| > 0 {
      var n := |specs| - 1;
      ListenersComplete(env, specs[..n]);
      ResolvedIff(env, specs[n].certificateRefs);
      SpecSays(specs[n], Resolve(env, specs[n].certificateRefs).value.ids);
      AllReadyLast(env, specs);
      assert forall k :: 0 <= k < n ==> specs[..n][k] == specs[k];
    }
  }

  lemma AllReadyLast(env: Certificates, specs: seq<ServiceSpec>)
    requires |specs| > 0
    ensures AllReady(env, specs) <==>
              AllReady(env, specs[..|specs| - 1]) && ReadyAll(env, Named(specs[|specs| - 1].certificateRefs))
  {
    var n := |specs| - 1;
    assert forall k :: 0 <= k < n ==> specs[..n][k] == specs[k];
  }

  // ---------- targets ----------

  datatype Call = CreateLB | Plug(server: nat) | Unplug(server: nat) | PushServices(services: seq<Services.Service>)

  /** The targets after a list of calls. */
  function Targets(start: set<nat>, calls: seq<Call>): set<nat>
    decreases |calls|
  {
    if |calls| == 0 then start
    else
      var before := Targets(start, calls[..|calls| - 1]);
      match calls[|calls| - 1]
      case Plug(s) => before + {s}
      case Unplug(s) => before - {s}
      case _ => before
  }

  /** Only missing servers are attached and only surplus ones detached, each once, and every
      missing server is attached before the first surplus one is detached. */
  ghost predicate MakeBeforeBreak(current: set<nat>, selected: set<nat>, calls: seq<Call>) {
    && Distinct(calls)
    && forall i :: 0 <= i < |calls| ==>
         match calls[i]
         case Plug(s) => s in selected - current
         case Unplug(s) => s in current - selected && AllPlugged(selected - current, calls[..i])
         case _ => false
  }

  ghost predicate AllPlugged(missing: set<nat>, calls: seq<Call>) { forall s :: s in missing ==> Plug(s) in calls }

  lemma PrefixMBB(current: set<nat>, selected: set<nat>, calls: seq<Call>, k: nat)
    requires MakeBeforeBreak(current, selected, calls) && k <= |calls|
    ensures MakeBeforeBreak(current, selected, calls[..k])
  {
    forall i | 0 <= i < k ensures calls[..k][i] == calls[i] && calls[..k][..i] == calls[..i] {}
  }

  lemma {:induction false} TargetsAre(current: set<nat>, selected: set<nat>, calls: seq<Call>)
    requires MakeBeforeBreak(current, selected, calls)
    ensures Targets(current, calls) == set s | s in current + selected &&
              (if s in current then Unplug(s) !in calls else Plug(s) in calls)
    decreases |calls|
  {
    if |calls| > 0 {
      var n := |calls| - 1;
      PrefixMBB(current, selected, calls, n);
      TargetsAre(current, selected, calls[..n]);
      assert calls == calls[..n] + [calls[n]];
    }
  }

  /** Make before break.  At every point of the two loops, so also wherever one stops with an
      error, the targets lie between what both old and new list have and what either has;
      whenever a server is about to be detached all selected ones are attached; and each call
      brings the targets one server closer to the selection. */
  lemma NeverFewerThanBoth(current: set<nat>, selected: set<nat>, calls: seq<Call>, k: nat)
    requires MakeBeforeBreak(current, selected, calls) && k <= |calls|
    ensures var now := Targets(current, calls[..k]);
            && current * selected <= now <= current + selected
            && (k < |calls| && calls[k].Unplug? ==> selected <= now)
            && |Difference(now, selected)| + k == |Difference(current, selected)|
  {
    PrefixMBB(current, selected, calls, k);
    TargetsAre(current, selected, calls[..k]);
    if k < |calls| && calls[k].Unplug? {
      var s := calls[k].server;
      assert AllPlugged(selected - current, calls[..k]);
    }
    EachCallCounts(current, selected, calls[..k]);
  }

  function Difference(a: set<nat>, b: set<nat>): set<nat> { (a - b) + (b - a) }

  lemma OneCloser(before: set<nat>, now: set<nat>, selected: set<nat>, s: nat)
    requires (s in selected - before && now == before + {s}) || (s in before - selected && now == before - {s})
    ensures |Difference(now, selected)| + 1 == |Difference(before, selected)|
  {
    assert s in Difference(before, selected) && s !in Difference(now, selected);
    assert Difference(before, selected) == Difference(now, selected) + {s};
  }

  lemma LastCall(current: set<nat>, selected: set<nat>, calls: seq<Call>)
    requires MakeBeforeBreak(current, selected, calls) && |calls| > 0
    ensures var n := |calls| - 1;
            var before, now, c := Targets(current, calls[..n]), Targets(current, calls), calls[n];
            || (c.Plug? && c.server in selected - before && now == before + {c.server})
            || (c.Unplug? && c.server in before - selected && now == before - {c.server})
  {
    var n := |calls| - 1;
    PrefixMBB(current, selected, calls, n);
    TargetsAre(current, selected, calls[..n]);
    assert calls[n] !in calls[..n];
  }

  lemma LastCallCounts(current: set<nat>, selected: set<nat>, calls: seq<Call>)
    requires MakeBeforeBreak(current, selected, calls) && |calls| > 0
    ensures |Difference(Targets(current, calls), selected)| + 1
         == |Difference(Targets(current, calls[..|calls| - 1]), selected)|
  {
    var n := |calls| - 1;
    LastCall(current, selected, calls);
    OneCloser(Targets(current, calls[..n]), Targets(current, calls), selected, calls[n].server);
  }

  lemma {:induction false} EachCallCounts(current: set<nat>, selected: set<nat>, calls: seq<Call>)
    requires MakeBeforeBreak(current, selected, calls)
    ensures |Difference(Targets(current, calls), selected)| + |calls| == |Difference(current, selected)|
    decreases |calls|
  {
    if |calls| > 0 {
      PrefixMBB(current, selected, calls, |calls| - 1);
      EachCallCounts(current, selected, calls[..|calls| - 1]);
      LastCallCounts(current, selected, calls);
    }
  }
}
