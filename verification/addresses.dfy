/** Floating and primary IPs: metadata, assignment and reverse DNS of an address that exists
    (internal/controller/hcloudfloatingip_controller.go:173-291,
    internal/controller/hcloudprimaryip_controller.go:175-293, and their cloud side in
    internal/hcloud/fake_client.go:860-914, 987-1038).  The two kinds differ only in their
    metadata: a description for one, an auto-delete flag for the other. */
module Addresses {
  import opened Prelude

  datatype Flavor = Floating | Primary

  datatype Info = Info(
    labels: map<string, string>, description: string, autoDelete: bool,
    ip: string, server: nat, dns: map<string, string>)

  datatype Spec = Spec(
    labels: map<string, string>, description: string, autoDelete: Option<bool>, dnsPtr: Option<string>)

  datatype Status = Status(id: nat, ip: string, applied: nat)

  datatype Call =
    | UpdateFloating(labels: Option<map<string, string>>, description: string)
    | UpdatePrimary(labels: Option<map<string, string>>, autoDelete: Option<bool>)
    | Unassign
    | Assign(server: nat)
    | ChangeDNS(ip: string, ptr: string)

  datatype Cloud = Cloud(info: Option<Info>, log: seq<Call>)

  datatype Site = AtUpdate | AfterUpdate | AtUnassign | AtAssign | AfterAssign | AtDNS | AfterDNS

  /** Before a call the address may be deleted by others; then the call meets its fate. */
  datatype Beat = Beat(gone: bool, fate: Fate)

  type Script = Site -> Beat

  datatype End = Finished | Errored(fault: Fault)

  datatype Did = Did(cloud: Cloud, reply: Reply<()>)

  // ---------- the cloud ----------

  function Moved(c: Cloud, b: Beat): Cloud { if b.gone then c.(info := None) else c }

  function Effect(info: Info, call: Call): Info {
    match call
    case UpdateFloating(labels, description) =>
      info.(labels := if labels.Some? then labels.value else info.labels, description := description)
    case UpdatePrimary(labels, autoDelete) =>
      info.(labels := if labels.Some? then labels.value else info.labels,
            autoDelete := if autoDelete.Some? then autoDelete.value else info.autoDelete)
    case Unassign => info.(server := 0)
    case Assign(server) => info.(server := server)
    case ChangeDNS(ip, ptr) => info.(dns := info.dns[ip := ptr])
  }

  function Do(c0: Cloud, call: Call, b: Beat): Did {
    var c := Moved(c0, b);
    if b.fate.Refused? then Did(c, Failed(Transport))
    else if c.info.None? then Did(c, Failed(NotFound))
    else Did(Cloud(Some(Effect(c.info.value, call)), c.log + [call]), Answer(b.fate, ()))
  }

  datatype Seen = Seen(cloud: Cloud, reply: Reply<Info>)

  /** A refresh; an address that is gone is an error. */
  function Refresh(c0: Cloud, b: Beat): Seen {
    var c := Moved(c0, b);
    if !b.fate.Works? then Seen(c, Failed(Transport))
    else if c.info.None? then Seen(c, Failed(Disappeared))
    else Seen(c, Got(c.info.value))
  }

  /** A call whose answer is lost has happened, a refused one has not; an address that others
      delete is not found by a call, and missed by the refresh that follows. */
  lemma CallsFare(c: Cloud, call: Call)
    ensures c.info.Some? ==>
              Do(c, call, Beat(false, Lost)) == Did(Do(c, call, Beat(false, Works)).cloud, Failed(Transport))
    ensures Do(c, call, Beat(false, Refused)) == Did(c, Failed(Transport))
    ensures Do(c, call, Beat(true, Works)) == Did(c.(info := None), Failed(NotFound))
    ensures Refresh(c, Beat(true, Works)) == Seen(c.(info := None), Failed(Disappeared))
    ensures Refresh(c, Beat(false, Lost)) == Refresh(c, Beat(false, Refused)) == Seen(c, Failed(Transport))
    ensures c.info.Some? ==> Refresh(c, Beat(false, Works)) == Seen(c, Got(c.info.value))
  {
  }

  // ---------- one pass ----------

  /** The metadata call, if one is due.  The description of a floating IP is sent empty unless
      it changed, and the cloud takes what is sent. */
  function MetadataCall(flavor: Flavor, spec: Spec, info: Info): Option<Call> {
    var labels := if info.labels != spec.labels then Some(spec.labels) else None;
    match flavor
    case Floating =>
      var changed := info.description != spec.description;
      if labels.Some? || changed then Some(UpdateFloating(labels, if changed then spec.description else ""))
      else None
    case Primary =>
      var changed := spec.autoDelete.Some? && info.autoDelete != spec.autoDelete.value;
      if labels.Some? || changed then Some(UpdatePrimary(labels, if changed then spec.autoDelete else None))
      else None
  }

  datatype Stepped = Stepped(cloud: Cloud, status: Status, reply: Reply<()>)

  function Assignment(c: Cloud, st: Status, info: Info, target: nat, sc: Script): Stepped {
    if target == 0 then
      if st.applied != 0 && info.server == st.applied then
        var d := Do(c, Unassign, sc(AtUnassign));
        Stepped(d.cloud, if d.reply.Got? then st.(applied := 0) else st, d.reply)
      else Stepped(c, st, Got(()))
    else if info.server == target then Stepped(c, st.(applied := target), Got(()))
    else
      var d := if info.server != 0 then Do(c, Unassign, sc(AtUnassign)) else Did(c, Got(()));
      if d.reply.Failed? then Stepped(d.cloud, st, d.reply)
      else
        var a := Do(d.cloud, Assign(target), sc(AtAssign));
        Stepped(a.cloud, if a.reply.Got? then st.(applied := target) else st, a.reply)
  }

  function PtrOf(info: Info): string { if info.ip in info.dns then info.dns[info.ip] else "" }

  function DNSCall(spec: Spec, info: Info): Option<Call> {
    if spec.dnsPtr.None? || info.ip == "" || PtrOf(info) == spec.dnsPtr.value then None
    else Some(ChangeDNS(info.ip, spec.dnsPtr.value))
  }

  function DoMaybe(c: Cloud, call: Option<Call>, b: Beat): Did {
    if call.None? then Did(c, Got(())) else Do(c, call.value, b)
  }

  function Synced(st: Status, id: nat, info: Info): Status {
    Status(id, info.ip, if info.server != 0 then info.server else st.applied)
  }

  datatype Outcome = Outcome(cloud: Cloud, status: Status, end: End)

  /** One pass over the address `id`, last seen as `info`. */
  function Pass(
      flavor: Flavor, spec: Spec, id: nat, target: nat, c: Cloud, st: Status, info: Info, sc: Script): Outcome
  {
    var m := DoMaybe(c, MetadataCall(flavor, spec, info), sc(AtUpdate));
    if m.reply.Failed? then Outcome(m.cloud, st, Errored(m.reply.fault))
    else
      var r1 := Refresh(m.cloud, sc(AfterUpdate));
      if r1.reply.Failed? then Outcome(r1.cloud, st, Errored(r1.reply.fault))
      else Assigned(spec, id, Assignment(r1.cloud, st, r1.reply.value, target, sc), sc)
  }

  function Assigned(spec: Spec, id: nat, a: Stepped, sc: Script): Outcome {
    if a.reply.Failed? then Outcome(a.cloud, a.status, Errored(a.reply.fault))
    else
      var r2 := Refresh(a.cloud, sc(AfterAssign));
      if r2.reply.Failed? then Outcome(r2.cloud, a.status, Errored(r2.reply.fault))
      else
        var d := DoMaybe(r2.cloud, DNSCall(spec, r2.reply.value), sc(AtDNS));
        if d.reply.Failed? then Outcome(d.cloud, a.status, Errored(d.reply.fault))
        else
          var r3 := Refresh(d.cloud, sc(AfterDNS));
          if r3.reply.Failed? then Outcome(r3.cloud, a.status, Errored(r3.reply.fault))
          else Outcome(r3.cloud, Synced(a.status, id, r3.reply.value), Finished)
  }

  // ---------- what passes converge to ----------

  predicate MetadataMatches(flavor: Flavor, spec: Spec, info: Info) {
    && info.labels == spec.labels
    && (flavor.Floating? ==> info.description == spec.description)
    && (flavor.Primary? && spec.autoDelete.Some? ==> info.autoDelete == spec.autoDelete.value)
  }

  /** The address has the wanted name, if one is wanted; no entry is as good as an empty name. */
  predicate DNSMatches(spec: Spec, info: Info) {
    spec.dnsPtr.Some? && info.ip != "" ==>
      if info.ip in info.dns then info.dns[info.ip] == spec.dnsPtr.value else spec.dnsPtr.value == ""
  }

  predicate Matches(flavor: Flavor, spec: Spec, target: nat, info: Info, st: Status) {
    && MetadataMatches(flavor, spec, info)
    && info.server == target && (target != 0 ==> st.applied == target)
    && DNSMatches(spec, info)
  }

  /** The description is lost by a pass that changes only the labels. */
  predicate Blanked(flavor: Flavor, spec: Spec, info: Info) {
    flavor.Floating? && info.labels != spec.labels && info.description == spec.description && spec.description != ""
  }

  /** An assignment the status does not know of is recorded by a pass, not removed. */
  predicate Unknown(target: nat, info: Info, st: Status) {
    target == 0 && info.server != 0 && st.applied != info.server
  }

  /** The state after one successful pass, from any state whatever. */
  lemma PassResult(flavor: Flavor, spec: Spec, id: nat, target: nat, c: Cloud, st: Status, sc: Script)
    requires c.info.Some?
    requires Pass(flavor, spec, id, target, c, st, c.info.value, sc).end.Finished?
    ensures var info, o := c.info.value, Pass(flavor, spec, id, target, c, st, c.info.value, sc);
            && o.cloud.info.Some?
            && var next := o.cloud.info.value;
            && next.ip == info.ip && next.labels == spec.labels
            && (flavor.Floating? ==>
                  next.description == if Blanked(flavor, spec, info) then "" else spec.description)
            && (flavor.Primary? ==> MetadataMatches(flavor, spec, next))
            && next.server == (if Unknown(target, info, st) then info.server else target)
            && DNSMatches(spec, next)
            && (target != 0 ==> o.status.applied == target)
            && (next.server != 0 ==> o.status.applied == next.server)
            && (Matches(flavor, spec, target, info, st) ==> o.cloud == c)
            && o.status.id == id && o.status.ip == info.ip
  {
    var info := c.info.value;
    var m := DoMaybe(c, MetadataCall(flavor, spec, info), sc(AtUpdate));
    MetadataResult(flavor, spec, c, info, sc(AtUpdate));
    var r1 := Refresh(m.cloud, sc(AfterUpdate));
    var i1, a := r1.reply.value, Assignment(r1.cloud, st, r1.reply.value, target, sc);
    AssignedFacts(spec, id, a, sc);
    AssignmentResult(r1.cloud, st, i1, target, sc);
  }

  /** What such a pass leaves as it was: what the flavor does not have, an auto-delete flag that
      the spec does not set, the names of other addresses; and what it records when there is no
      target. */
  lemma PassKeepsTheRest(flavor: Flavor, spec: Spec, id: nat, target: nat, c: Cloud, st: Status, sc: Script)
    requires c.info.Some?
    requires Pass(flavor, spec, id, target, c, st, c.info.value, sc).end.Finished?
    ensures var info, o := c.info.value, Pass(flavor, spec, id, target, c, st, c.info.value, sc);
            && o.cloud.info.Some?
            && var next := o.cloud.info.value;
            && (flavor.Floating? ==> next.autoDelete == info.autoDelete)
            && (flavor.Primary? ==> next.description == info.description)
            && (flavor.Primary? && spec.autoDelete.None? ==> next.autoDelete == info.autoDelete)
            && next.dns == (if DNSMatches(spec, info) then info.dns else info.dns[info.ip := spec.dnsPtr.value])
            && (target == 0 && next.server == 0 ==> o.status.applied == if info.server != 0 then 0 else st.applied)
  {
    var info := c.info.value;
    var m := DoMaybe(c, MetadataCall(flavor, spec, info), sc(AtUpdate));
    MetadataResult(flavor, spec, c, info, sc(AtUpdate));
    var r1 := Refresh(m.cloud, sc(AfterUpdate));
    var i1, a := r1.reply.value, Assignment(r1.cloud, st, r1.reply.value, target, sc);
    AssignedFacts(spec, id, a, sc);
    AssignmentResult(r1.cloud, st, i1, target, sc);
  }

  /** The assignment calls due: off the old server before onto the new one. */
  function MovesDue(target: nat, info: Info, st: Status): seq<Call> {
    if info.server == target || Unknown(target, info, st) then []
    else (if info.server == 0 then [] else [Unassign]) + (if target == 0 then [] else [Assign(target)])
  }

  /** The calls of such a pass, in order: metadata if they differ, the moves due, the name if it
      is wrong, and no other. */
  lemma PassCalls(flavor: Flavor, spec: Spec, id: nat, target: nat, c: Cloud, st: Status, sc: Script)
    returns (update: seq<Call>, name: seq<Call>)
    requires c.info.Some?
    requires Pass(flavor, spec, id, target, c, st, c.info.value, sc).end.Finished?
    ensures var info, o := c.info.value, Pass(flavor, spec, id, target, c, st, c.info.value, sc);
            && o.cloud.log == c.log + update + MovesDue(target, info, st) + name
            && (if MetadataMatches(flavor, spec, info) then update == []
                else |update| == 1 && if flavor.Floating? then update[0].UpdateFloating? else update[0].UpdatePrimary?)
            && name == (if DNSMatches(spec, info) then [] else [ChangeDNS(info.ip, spec.dnsPtr.value)])
            && (update != [] ==> update[0].labels == if info.labels == spec.labels then None else Some(spec.labels))
            && (update != [] && flavor.Primary? ==>
                  update[0].autoDelete == if spec.autoDelete == Some(info.autoDelete) then None else spec.autoDelete)
  {
    var info := c.info.value;
    var call := MetadataCall(flavor, spec, info);
    update := if call.Some? then [call.value] else [];
    name := if DNSMatches(spec, info) then [] else [ChangeDNS(info.ip, spec.dnsPtr.value)];
    var m := DoMaybe(c, call, sc(AtUpdate));
    MetadataResult(flavor, spec, c, info, sc(AtUpdate));
    var r1 := Refresh(m.cloud, sc(AfterUpdate));
    var i1, a := r1.reply.value, Assignment(r1.cloud, st, r1.reply.value, target, sc);
    AssignedFacts(spec, id, a, sc);
    AssignmentResult(r1.cloud, st, i1, target, sc);
    AssignmentCalls(r1.cloud, st, i1, target, sc);
    assert m.cloud.log == c.log + update;
  }

  lemma AssignmentCalls(c: Cloud, st: Status, info: Info, target: nat, sc: Script)
    requires c.info == Some(info)
    requires Assignment(c, st, info, target, sc).reply.Got? && Assignment(c, st, info, target, sc).cloud.info.Some?
    ensures Assignment(c, st, info, target, sc).cloud.log == c.log + MovesDue(target, info, st)
  {
    assert c.log + [] == c.log;
    assert c.log + [Unassign] + [Assign(target)] == c.log + [Unassign, Assign(target)];
  }

  lemma FailedAssignmentRecordsNothing(c: Cloud, st: Status, info: Info, target: nat, sc: Script)
    requires Assignment(c, st, info, target, sc).reply.Failed?
    ensures Assignment(c, st, info, target, sc).status == st
  {
  }

  /** A pass that fails records at most the assignment it has just made or taken back. */
  lemma FailureRecords(flavor: Flavor, spec: Spec, id: nat, target: nat, c: Cloud, st: Status, info: Info, sc: Script)
    requires Pass(flavor, spec, id, target, c, st, info, sc).end.Errored?
    ensures var o := Pass(flavor, spec, id, target, c, st, info, sc);
            o.status == st || o.status == st.(applied := target)
  {
  }

  /** The metadata step changes the metadata only, and nothing if they match. */
  lemma MetadataResult(flavor: Flavor, spec: Spec, c: Cloud, info: Info, b: Beat)
    requires c.info == Some(info) && DoMaybe(c, MetadataCall(flavor, spec, info), b).reply.Got?
    ensures var m := DoMaybe(c, MetadataCall(flavor, spec, info), b);
            && m.cloud.info.Some?
            && var next := m.cloud.info.value;
            && next.server == info.server && next.dns == info.dns && next.ip == info.ip && next.labels == spec.labels
            && (flavor.Floating? ==> next.description == if Blanked(flavor, spec, info) then "" else spec.description)
            && (flavor.Primary? ==> MetadataMatches(flavor, spec, next))
            && (flavor.Floating? ==> next.autoDelete == info.autoDelete)
            && (flavor.Primary? ==> next.description == info.description)
            && (flavor.Primary? && spec.autoDelete.None? ==> next.autoDelete == info.autoDelete)
            && (MetadataMatches(flavor, spec, info) ==> m.cloud == c)
  {
  }

  /** What follows the assignment sets the DNS entry if it is wrong, and syncs the status. */
  lemma AssignedFacts(spec: Spec, id: nat, a: Stepped, sc: Script)
    requires Assigned(spec, id, a, sc).end.Finished?
    ensures var o := Assigned(spec, id, a, sc);
            && a.cloud.info.Some? && o.cloud.info.Some?
            && var was, next := a.cloud.info.value, o.cloud.info.value;
            && next == was.(dns := next.dns) && DNSMatches(spec, next)
            && (DNSMatches(spec, was) ==> o.cloud == a.cloud)
            && (!DNSMatches(spec, was) ==>
                  && next.dns == was.dns[was.ip := spec.dnsPtr.value]
                  && o.cloud.log == a.cloud.log + [ChangeDNS(was.ip, spec.dnsPtr.value)])
            && o.status == Synced(a.status, id, next)
  {
  }

  lemma AssignmentResult(c: Cloud, st: Status, info: Info, target: nat, sc: Script)
    requires c.info == Some(info)
    requires Assignment(c, st, info, target, sc).reply.Got? && Assignment(c, st, info, target, sc).cloud.info.Some?
    ensures var a := Assignment(c, st, info, target, sc);
            && a.cloud.info.value == info.(server := if Unknown(target, info, st) then info.server else target)
            && (target != 0 ==> a.status.applied == target)
            && (a.cloud.log == c.log <==> info.server == target || Unknown(target, info, st))
            && a.status.id == st.id && a.status.ip == st.ip
            && (target == 0 ==>
                  a.status.applied == if info.server != 0 && st.applied == info.server then 0 else st.applied)
  {
  }

  // ---------- the fixpoint ----------

  /** Every call is answered and nobody deletes the address. */
  ghost predicate Calm(sc: Script) { forall site :: sc(site) == Beat(false, Works) }

  /** A pass in which nothing goes wrong finishes, whatever it has to do. */
  lemma CalmPassFinishes(
      flavor: Flavor, spec: Spec, id: nat, target: nat, c: Cloud, st: Status, info: Info, sc: Script)
    requires c.info.Some? && Calm(sc)
    ensures Pass(flavor, spec, id, target, c, st, info, sc).end.Finished?
  {
    assert sc(AtUpdate) == sc(AfterUpdate) == sc(AtUnassign) == sc(AtAssign) == Beat(false, Works);
    assert sc(AfterAssign) == sc(AtDNS) == sc(AfterDNS) == Beat(false, Works);
  }

  /** So two passes in which nothing goes wrong always bring the address to its spec. */
  lemma CalmPassesReachSpec(
      flavor: Flavor, spec: Spec, id: nat, target: nat, c: Cloud, st: Status, sc1: Script, sc2: Script)
    requires c.info.Some? && Calm(sc1) && Calm(sc2)
    ensures var o1 := Pass(flavor, spec, id, target, c, st, c.info.value, sc1);
            && o1.cloud.info.Some?
            && var o2 := Pass(flavor, spec, id, target, o1.cloud, o1.status, o1.cloud.info.value, sc2);
            && o2.end.Finished? && o2.cloud.info.Some?
            && Matches(flavor, spec, target, o2.cloud.info.value, o2.status)
  {
    CalmPassFinishes(flavor, spec, id, target, c, st, c.info.value, sc1);
    PassResult(flavor, spec, id, target, c, st, sc1);
    var o1 := Pass(flavor, spec, id, target, c, st, c.info.value, sc1);
    CalmPassFinishes(flavor, spec, id, target, o1.cloud, o1.status, o1.cloud.info.value, sc2);
    assert !sc2(AfterUpdate).gone && !sc2(AfterAssign).gone && !sc2(AfterDNS).gone && !sc2(AtUnassign).gone;
    FixpointInTwoPasses(flavor, spec, id, target, c, st, sc1, sc2, sc2);
  }

  /** Two passes that succeed bring the address to its spec from any state at all, and every
      further pass, however its calls fare, leaves the cloud alone. */
  lemma FixpointInTwoPasses(
      flavor: Flavor, spec: Spec, id: nat, target: nat, c: Cloud, st: Status,
      sc1: Script, sc2: Script, sc3: Script)
    requires c.info.Some?
    requires var o1 := Pass(flavor, spec, id, target, c, st, c.info.value, sc1);
             && o1.end.Finished? && o1.cloud.info.Some?
             && Pass(flavor, spec, id, target, o1.cloud, o1.status, o1.cloud.info.value, sc2).end.Finished?
    requires forall site :: !sc3(site).gone
    ensures var o1 := Pass(flavor, spec, id, target, c, st, c.info.value, sc1);
            var o2 := Pass(flavor, spec, id, target, o1.cloud, o1.status, o1.cloud.info.value, sc2);
            && o2.cloud.info.Some?
            && Matches(flavor, spec, target, o2.cloud.info.value, o2.status)
            && Pass(flavor, spec, id, target, o2.cloud, o2.status, o2.cloud.info.value, sc3).cloud == o2.cloud
  {
    PassResult(flavor, spec, id, target, c, st, sc1);
    var o1 := Pass(flavor, spec, id, target, c, st, c.info.value, sc1);
    PassResult(flavor, spec, id, target, o1.cloud, o1.status, sc2);
    var o2 := Pass(flavor, spec, id, target, o1.cloud, o1.status, o1.cloud.info.value, sc2);
    MatchedIsSilent(flavor, spec, id, target, o2.cloud, o2.status, sc3);
  }

  lemma MatchedIsSilent(flavor: Flavor, spec: Spec, id: nat, target: nat, c: Cloud, st: Status, sc: Script)
    requires c.info.Some? && Matches(flavor, spec, target, c.info.value, st)
    requires forall site :: !sc(site).gone
    ensures Pass(flavor, spec, id, target, c, st, c.info.value, sc).cloud == c
  {
    assert !sc(AfterUpdate).gone && !sc(AfterAssign).gone && !sc(AfterDNS).gone && !sc(AtUnassign).gone;
  }

  /** The second pass is needed exactly in two cases: the first one blanked the description,
      or it met an assignment it had no record of while none was wanted. */
  lemma SecondPassNeededIff(
      flavor: Flavor, spec: Spec, id: nat, target: nat, c: Cloud, st: Status, sc1: Script, sc2: Script)
    requires c.info.Some?
    requires var o1 := Pass(flavor, spec, id, target, c, st, c.info.value, sc1);
             && o1.end.Finished? && o1.cloud.info.Some?
             && Pass(flavor, spec, id, target, o1.cloud, o1.status, o1.cloud.info.value, sc2).end.Finished?
    ensures var info := c.info.value;
            var o1 := Pass(flavor, spec, id, target, c, st, info, sc1);
            Pass(flavor, spec, id, target, o1.cloud, o1.status, o1.cloud.info.value, sc2).cloud != o1.cloud
            <==> Blanked(flavor, spec, info) || Unknown(target, info, st)
  {
    PassResult(flavor, spec, id, target, c, st, sc1);
    var o1 := Pass(flavor, spec, id, target, c, st, c.info.value, sc1);
    PassResult(flavor, spec, id, target, o1.cloud, o1.status, sc2);
  }

  // ---------- the same reconciler, in place ----------

  class HCloudIP {
    const flavor: Flavor
    var spec: Spec
    var status: Status

    constructor (flavor: Flavor, spec: Spec, status: Status)
      ensures this.flavor == flavor && this.spec == spec && this.status == status
    {
      this.flavor, this.spec, this.status := flavor, spec, status;
    }
  }

  /** The cloud's map of addresses. */
  class FakeIPs {
    var ips: map<nat, Info>
    var log: seq<Call>

    constructor ()
      ensures ips == map[] && log == []
    {
      ips, log := map[], [];
    }

    function CloudOf(id: nat): Cloud
      reads this
    {
      Cloud(if id in ips then Some(ips[id]) else None, log)
    }

    twostate predicate OnlyTouched(id: nat)
      reads this
    {
      ips - {id} == old(ips) - {id}
    }

    method Invoke(id: nat, call: Call, b: Beat) returns (r: Reply<()>)
      modifies this
      ensures Did(CloudOf(id), r) == Do(old(CloudOf(id)), call, b) && OnlyTouched(id)
    {
      if b.gone { ips := ips - {id}; }
      if b.fate.Refused? { return Failed(Transport); }
      if id !in ips { return Failed(NotFound); }
      ips := ips[id := Effect(ips[id], call)];
      log := log + [call];
      r := Answer(b.fate, ());
    }

    method Fetch(id: nat, b: Beat) returns (r: Reply<Info>)
      modifies this
      ensures Seen(CloudOf(id), r) == Refresh(old(CloudOf(id)), b) && OnlyTouched(id)
    {
      if b.gone { ips := ips - {id}; }
      if !b.fate.Works? { return Failed(Transport); }
      if id !in ips { return Failed(Disappeared); }
      r := Got(ips[id]);
    }
  }

  class IPReconciler {
    const cloud: FakeIPs

    constructor (cloud: FakeIPs)
      ensures this.cloud == cloud
    {
      this.cloud := cloud;
    }

    method ReconcileIP(obj: HCloudIP, id: nat, target: nat, info: Info, sc: Script) returns (end: End)
      modifies obj`status, cloud
      ensures Outcome(cloud.CloudOf(id), obj.status, end)
           == Pass(obj.flavor, obj.spec, id, target, old(cloud.CloudOf(id)), old(obj.status), info, sc)
      ensures cloud.OnlyTouched(id)
    {
      var existing := info;
      var call := MetadataCall(obj.flavor, obj.spec, existing);
      if call.Some? {
        var r := cloud.Invoke(id, call.value, sc(AtUpdate));
        if r.Failed? { return Errored(r.fault); }
      }
      var refreshed := cloud.Fetch(id, sc(AfterUpdate));
      if refreshed.Failed? { return Errored(refreshed.fault); }
      existing := refreshed.value;

      var placed := EnsureAssignment(obj, id, target, existing, sc);
      if placed.Failed? { return Errored(placed.fault); }
      refreshed := cloud.Fetch(id, sc(AfterAssign));
      if refreshed.Failed? { return Errored(refreshed.fault); }
      existing := refreshed.value;

      call := DNSCall(obj.spec, existing);
      if call.Some? {
        var r := cloud.Invoke(id, call.value, sc(AtDNS));
        if r.Failed? { return Errored(r.fault); }
      }
      refreshed := cloud.Fetch(id, sc(AfterDNS));
      if refreshed.Failed? { return Errored(refreshed.fault); }
      existing := refreshed.value;

      obj.status := obj.status.(id := id, ip := existing.ip);
      if existing.server != 0 { obj.status := obj.status.(applied := existing.server); }
      end := Finished;
    }

    method EnsureAssignment(obj: HCloudIP, id: nat, target: nat, existing: Info, sc: Script) returns (r: Reply<()>)
      modifies obj`status, cloud
      ensures Stepped(cloud.CloudOf(id), obj.status, r)
           == Assignment(old(cloud.CloudOf(id)), old(obj.status), existing, target, sc)
      ensures cloud.OnlyTouched(id)
    {
      if target == 0 {
        if obj.status.applied != 0 && existing.server == obj.status.applied {
          r := cloud.Invoke(id, Unassign, sc(AtUnassign));
          if r.Failed? { return; }
          obj.status := obj.status.(applied := 0);
        }
        return Got(());
      }
      if existing.server == target {
        obj.status := obj.status.(applied := target);
        return Got(());
      }
      if existing.server != 0 {
        r := cloud.Invoke(id, Unassign, sc(AtUnassign));
        if r.Failed? { return; }
      }
      r := cloud.Invoke(id, Assign(target), sc(AtAssign));
      if r.Got? { obj.status := obj.status.(applied := target); }
    }
  }
}
