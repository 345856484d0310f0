/** Load-balancer services: the port-keyed diff against the cloud
    (internal/hcloud/loadbalancer_service.go:41-390) and the wholesale replacement by which the
    in-memory cloud stands in for it (internal/hcloud/fake_client.go:773-783).

    The cloud's side of a service is `Svc`; an update leaves every field unset in the request
    as it was, an add starts from `Blank`, where the cloud is free to choose the health check
    of a service added without one. */
module Services {
  import opened Prelude

  // ---------- the portable form ----------

  datatype HTTPCheck = HTTPCheck(
    domain: Option<string>, path: Option<string>, response: Option<string>, codes: seq<string>, tls: Option<bool>)

  datatype Check = Check(
    protocol: string, port: Option<int>, interval: Option<int>, timeout: Option<int>, retries: Option<int>,
    http: Option<HTTPCheck>)

  datatype Service = Service(
    protocol: string, listen: int, dest: int, proxy: bool, certs: seq<int>, check: Option<Check>)

  // ---------- the cloud's form ----------

  datatype SvcHTTP = SvcHTTP(domain: string, path: string, response: string, codes: seq<string>, tls: bool)

  /** An empty protocol means that there is no health check. */
  datatype SvcCheck = SvcCheck(
    protocol: string, port: int, interval: int, timeout: int, retries: int, http: Option<SvcHTTP>)

  datatype Svc = Svc(protocol: string, listen: int, dest: int, proxy: bool, certs: seq<int>, check: SvcCheck)

  function Positive(n: int): Option<int> { if n > 0 then Some(n) else None }

  function NonEmpty(s: string): Option<string> { if s != "" then Some(s) else None }

  function HTTPFromCloud(h: SvcHTTP): HTTPCheck {
    HTTPCheck(NonEmpty(h.domain), NonEmpty(h.path), NonEmpty(h.response), h.codes, if h.tls then Some(true) else None)
  }

  function CheckFromCloud(c: SvcCheck): Check {
    Check(c.protocol, Positive(c.port), Positive(c.interval), Positive(c.timeout), Positive(c.retries),
          if c.http.Some? then Some(HTTPFromCloud(c.http.value)) else None)
  }

  function FromCloud(s: Svc): Service {
    Service(s.protocol, s.listen, s.dest, s.proxy, s.certs,
            if s.check.protocol != "" then Some(CheckFromCloud(s.check)) else None)
  }

  // ---------- requests ----------

  /** A field of a request: what was there if it is unset. */
  function Set<T>(field: Option<T>, was: T): T { if field.Some? then field.value else was }

  function SetText(field: string, was: string): string { if field != "" then field else was }

  function UpdateHTTP(was: SvcHTTP, want: HTTPCheck): SvcHTTP {
    SvcHTTP(Set(want.domain, was.domain), Set(want.path, was.path), Set(want.response, was.response),
            want.codes, Set(want.tls, was.tls))
  }

  const NOHTTP := SvcHTTP("", "", "", [], false)

  function UpdateCheck(was: SvcCheck, want: Check): SvcCheck {
    SvcCheck(SetText(want.protocol, was.protocol), Set(want.port, was.port), Set(want.interval, was.interval),
             Set(want.timeout, was.timeout), Set(want.retries, was.retries),
             if want.http.Some?
             then Some(UpdateHTTP(if was.http.Some? then was.http.value else NOHTTP, want.http.value))
             else was.http)
  }

  /** Certificates and the health check are sent only if there are any. */
  function Updated(was: Svc, want: Service): Svc {
    Svc(SetText(want.protocol, was.protocol), was.listen, want.dest, want.proxy,
        if |want.certs| > 0 then want.certs else was.certs,
        if want.check.Some? then UpdateCheck(was.check, want.check.value) else was.check)
  }

  const NOCHECK := SvcCheck("", 0, 0, 0, 0, None)

  /** A new service before its request is applied; `chosen` is the health check the cloud gives
      to a service that asks for none. */
  function Blank(want: Service, chosen: SvcCheck): Svc {
    Svc("", want.listen, 0, false, [], if want.check.None? then chosen else NOCHECK)
  }

  function Added(want: Service, chosen: SvcCheck): Svc { Updated(Blank(want, chosen), want) }

  // ---------- comparison ----------

  predicate SameHTTP(a: Option<HTTPCheck>, b: Option<HTTPCheck>) {
    if a.None? || b.None? then a.None? && b.None?
    else
      && a.value.domain == b.value.domain && a.value.path == b.value.path
      && a.value.response == b.value.response && a.value.tls == b.value.tls
      && |a.value.codes| == |b.value.codes|
      && forall i :: 0 <= i < |a.value.codes| ==> a.value.codes[i] == b.value.codes[i]
  }

  predicate SameCheck(a: Option<Check>, b: Option<Check>) {
    if a.None? || b.None? then a.None? && b.None?
    else
      && a.value.protocol == b.value.protocol && a.value.port == b.value.port
      && a.value.interval == b.value.interval && a.value.timeout == b.value.timeout
      && a.value.retries == b.value.retries && SameHTTP(a.value.http, b.value.http)
  }

  /** Whether the service `have` needs no update to be `want`; a health check nobody asks for
      is not compared. */
  predicate ServicesEqual(have: Service, want: Service) {
    && have.protocol == want.protocol && have.listen == want.listen && have.dest == want.dest
    && have.proxy == want.proxy && |have.certs| == |want.certs|
    && (forall i :: 0 <= i < |have.certs| ==> have.certs[i] == want.certs[i])
    && (want.check.None? || SameCheck(have.check, want.check))
  }

  lemma SameHTTPIsEquality(a: Option<HTTPCheck>, b: Option<HTTPCheck>)
    ensures SameHTTP(a, b) <==> a == b
  {
    if SameHTTP(a, b) && a.Some? { assert a.value.codes == b.value.codes; }
  }

  /** Needing no update is being the wanted service, apart from a health check nobody asks for. */
  lemma ServicesEqualIs(have: Service, want: Service)
    ensures ServicesEqual(have, want) <==>
              have == want.(check := have.check) && (want.check.None? || have.check == want.check)
  {
    if ServicesEqual(have, want) {
      assert have.certs == want.certs;
      if want.check.Some? { SameHTTPIsEquality(have.check.value.http, want.check.value.http); }
    }
  }

  // ---------- the cloud's service, field by field ----------

  /** An unset number is one that is not positive, an unset text an empty one. */
  predicate HoldsNumber(n: int, want: Option<int>) { (want == None && n <= 0) || (want == Some(n) && n > 0) }

  predicate HoldsText(s: string, want: Option<string>) { (want == None && s == "") || (want == Some(s) && s != "") }

  predicate HoldsHTTP(h: SvcHTTP, want: HTTPCheck) {
    && HoldsText(h.domain, want.domain) && HoldsText(h.path, want.path) && HoldsText(h.response, want.response)
    && h.codes == want.codes && ((want.tls == None && !h.tls) || (want.tls == Some(true) && h.tls))
  }

  predicate HoldsCheck(c: SvcCheck, want: Check) {
    && c.protocol == want.protocol && c.protocol != ""
    && HoldsNumber(c.port, want.port) && HoldsNumber(c.interval, want.interval)
    && HoldsNumber(c.timeout, want.timeout) && HoldsNumber(c.retries, want.retries)
    && (c.http.Some? <==> want.http.Some?) && (c.http.Some? ==> HoldsHTTP(c.http.value, want.http.value))
  }

  /** The cloud holds the wanted service. */
  predicate Holds(svc: Svc, want: Service) {
    && svc.protocol == want.protocol && svc.listen == want.listen && svc.dest == want.dest
    && svc.proxy == want.proxy && svc.certs == want.certs
    && (want.check.Some? ==> HoldsCheck(svc.check, want.check.value))
  }

  /** What is read back needs no update exactly if the cloud holds what is wanted. */
  lemma HoldsIff(svc: Svc, want: Service)
    ensures ServicesEqual(FromCloud(svc), want) <==> Holds(svc, want)
  {
    ServicesEqualIs(FromCloud(svc), want);
  }

  /** A field of the request that is unset leaves the cloud's alone; one that is set replaces it. */
  predicate Sent<T(==)>(now: T, field: Option<T>, was: T) { if field == None then now == was else field == Some(now) }

  predicate SentHTTP(now: SvcHTTP, want: HTTPCheck, was: SvcHTTP) {
    && Sent(now.domain, want.domain, was.domain) && Sent(now.path, want.path, was.path)
    && Sent(now.response, want.response, was.response) && Sent(now.tls, want.tls, was.tls) && now.codes == want.codes
  }

  predicate SentCheck(now: SvcCheck, want: Check, was: SvcCheck) {
    && Sent(now.protocol, NonEmpty(want.protocol), was.protocol) && Sent(now.port, want.port, was.port)
    && Sent(now.interval, want.interval, was.interval) && Sent(now.timeout, want.timeout, was.timeout)
    && Sent(now.retries, want.retries, was.retries)
    && (want.http == None ==> now.http == was.http)
    && (want.http.Some? ==>
          && now.http.Some?
          && SentHTTP(now.http.value, want.http.value, if was.http.Some? then was.http.value else NOHTTP))
  }

  /** An update always sends destination and proxy flag, never moves a service to another port,
      and touches no other field that the request leaves unset. */
  lemma UpdateSendsOnlyWhatIsSet(was: Svc, want: Service)
    ensures var now := Updated(was, want);
            && now.listen == was.listen && now.dest == want.dest && now.proxy == want.proxy
            && now.protocol == (if want.protocol == "" then was.protocol else want.protocol)
            && now.certs == (if want.certs == [] then was.certs else want.certs)
            && (want.check == None ==> now.check == was.check)
            && (want.check.Some? ==> SentCheck(now.check, want.check.value, was.check))
  {
  }

  /** A new service listens where it is wanted; without a check of its own it has the cloud's. */
  lemma AddedIs(want: Service, chosen: SvcCheck)
    ensures var now := Added(want, chosen);
            && now.listen == want.listen && now.dest == want.dest && now.proxy == want.proxy
            && now.protocol == want.protocol && now.certs == want.certs
            && (want.check == None ==> now.check == chosen)
            && (want.check.Some? ==> SentCheck(now.check, want.check.value, SvcCheck("", 0, 0, 0, 0, None)))
  {
  }

  // ---------- when an update takes ----------

  /** Unset in the request, unset in the cloud; or set to something that reads back. */
  predicate NumberTakes(field: Option<int>, was: int) {
    if field.Some? then field.value > 0 else was <= 0
  }

  predicate TextTakes(field: Option<string>, was: string) {
    if field.Some? then field.value != "" else was == ""
  }

  predicate HTTPTakes(was: SvcHTTP, want: HTTPCheck) {
    && TextTakes(want.domain, was.domain) && TextTakes(want.path, was.path) && TextTakes(want.response, was.response)
    && (if want.tls.Some? then want.tls.value else !was.tls)
  }

  predicate CheckTakes(was: SvcCheck, want: Check) {
    && want.protocol != ""
    && NumberTakes(want.port, was.port) && NumberTakes(want.interval, was.interval)
    && NumberTakes(want.timeout, was.timeout) && NumberTakes(want.retries, was.retries)
    && (if want.http.Some?
        then HTTPTakes(if was.http.Some? then was.http.value else NOHTTP, want.http.value)
        else was.http.None?)
  }

  /** The request sets every optional field that the cloud holds, and sets none to a zero value. */
  predicate Takes(was: Svc, want: Service) {
    && was.listen == want.listen
    && (want.protocol != "" || was.protocol == "")
    && (|want.certs| > 0 || |was.certs| == 0)
    && (want.check.Some? ==> CheckTakes(was.check, want.check.value))
  }

  lemma HTTPTakesIff(was: SvcHTTP, want: HTTPCheck)
    ensures HTTPFromCloud(UpdateHTTP(was, want)) == want <==> HTTPTakes(was, want)
  {
  }

  /** An update makes the cloud's service equal to the wanted one exactly if it takes. */
  lemma UpdateTakesIff(was: Svc, want: Service)
    ensures ServicesEqual(FromCloud(Updated(was, want)), want) <==> Takes(was, want)
    ensures Holds(Updated(was, want), want) <==> Takes(was, want)
  {
    HoldsIff(Updated(was, want), want);
    var now := FromCloud(Updated(was, want));
    if want.check.Some? && now.check.Some? {
      if want.check.value.http.Some? {
        HTTPTakesIff(if was.check.http.Some? then was.check.http.value else NOHTTP,
                    want.check.value.http.value);
      }
      SameHTTPIsEquality(now.check.value.http, want.check.value.http);
    }
  }

  /** A service can be added as wanted exactly if it is free of pointers to zero values. */
  predicate Normal(want: Service) { Takes(Blank(want, NOCHECK), want) }

  lemma AddTakesIff(want: Service, chosen: SvcCheck)
    ensures ServicesEqual(FromCloud(Added(want, chosen)), want) <==> Normal(want)
    ensures Holds(Added(want, chosen), want) <==> Normal(want)
  {
    UpdateTakesIff(Blank(want, chosen), want);
  }

  // ---------- the diff ----------

  type Ports = map<int, Svc>

  /** The last service of the list that listens on a port. */
  function ByPort(desired: seq<Service>): map<int, Service>
    decreases |desired|
  {
    if |desired| == 0 then map[]
    else ByPort(desired[..|desired| - 1])[desired[|desired| - 1].listen := desired[|desired| - 1]]
  }

  /** Of several services on one port the last counts. */
  lemma {:induction false} LastWins(desired: seq<Service>, i: nat)
    requires i < |desired| && forall j :: i < j < |desired| ==> desired[j].listen != desired[i].listen
    ensures desired[i].listen in ByPort(desired) && ByPort(desired)[desired[i].listen] == desired[i]
    decreases |desired|
  {
    if i < |desired| - 1 {
      var front := desired[..|desired| - 1];
      assert forall j :: 0 <= j < |front| ==> front[j] == desired[j];
      LastWins(front, i);
    }
  }

  /** What the diff leaves, port by port; the order of the calls does not matter. */
  function Synced(now: Ports, want: map<int, Service>, chosen: SvcCheck): Ports {
    map p | p in want ::
      if p !in now then Added(want[p], chosen)
      else if ServicesEqual(FromCloud(now[p]), want[p]) then now[p]
      else Updated(now[p], want[p])
  }

  predicate Agrees(now: Ports, want: map<int, Service>, p: int) {
    if p in now && p in want then ServicesEqual(FromCloud(now[p]), want[p]) else p !in now && p !in want
  }

  /** The ports on which cloud and spec disagree. */
  function Disagreeing(now: Ports, want: map<int, Service>): set<int> {
    set p | p in now.Keys + want.Keys && !Agrees(now, want, p)
  }

  /** Cloud and spec agree on exactly the ports where the cloud holds what is wanted, or nothing
      is there and nothing is wanted. */
  lemma DisagreeingIs(now: Ports, want: map<int, Service>)
    ensures forall p :: p !in Disagreeing(now, want) <==>
              if p in want then p in now && Holds(now[p], want[p]) else p !in now
  {
    forall p | p in now && p in want ensures ServicesEqual(FromCloud(now[p]), want[p]) <==> Holds(now[p], want[p]) {
      HoldsIff(now[p], want[p]);
    }
  }

  /** Every call the diff will make takes. */
  ghost predicate Settles(now: Ports, want: map<int, Service>) {
    forall p :: p in want && !Agrees(now, want, p) ==> if p in now then Takes(now[p], want[p]) else Normal(want[p])
  }

  ghost predicate Keyed(want: map<int, Service>) { forall p :: p in want ==> want[p].listen == p }

  lemma {:induction false} ByPortKeyed(desired: seq<Service>)
    ensures Keyed(ByPort(desired))
    decreases |desired|
  {
    if |desired| > 0 { ByPortKeyed(desired[..|desired| - 1]); }
  }

  /** The diff reaches the wanted services exactly if every call it makes takes; then a second
      sync finds nothing to do. */
  lemma SyncReachesIff(now: Ports, want: map<int, Service>, chosen: SvcCheck)
    requires Keyed(want)
    ensures Synced(now, want, chosen).Keys == want.Keys
    ensures Disagreeing(Synced(now, want, chosen), want) == {} <==> Settles(now, want)
    ensures Settles(now, want) ==> Synced(Synced(now, want, chosen), want, chosen) == Synced(now, want, chosen)
  {
    var after := Synced(now, want, chosen);
    forall p | p in want
      ensures Agrees(after, want, p) <==> Agrees(now, want, p)
                                          || if p in now then Takes(now[p], want[p]) else Normal(want[p])
    {
      if p in now { UpdateTakesIff(now[p], want[p]); } else { AddTakesIff(want[p], chosen); }
    }
    if Settles(now, want) {
      var again := Synced(after, want, chosen);
      forall p | p in want ensures again[p] == after[p] { assert Agrees(after, want, p); }
      assert again == after;
    } else {
      var p :| p in want && !Agrees(now, want, p) && !if p in now then Takes(now[p], want[p]) else Normal(want[p]);
      assert p in Disagreeing(after, want);
    }
  }

  ghost predicate AllHeld(now: Ports, want: map<int, Service>) {
    forall p :: p in want ==> p in now && Holds(now[p], want[p])
  }

  lemma SettledHolds(now: Ports, want: map<int, Service>, chosen: SvcCheck)
    requires Keyed(want)
    ensures Settles(now, want) ==> AllHeld(Synced(now, want, chosen), want)
  {
    SyncReachesIff(now, want, chosen);
    DisagreeingIs(Synced(now, want, chosen), want);
  }

  /** The services after a number of syncs, each with its own choice of default checks. */
  function Syncs(now: Ports, want: map<int, Service>, chosen: seq<SvcCheck>): Ports
    decreases |chosen|
  {
    if |chosen| == 0 then now else Syncs(Synced(now, want, chosen[0]), want, chosen[1..])
  }

  /** An update that does not take the first time never does. */
  lemma NeverTakes(was: Svc, want: Service)
    ensures !Takes(was, want) ==> !Takes(Updated(was, want), want)
  {
  }

  lemma StaysUnsettled(now: Ports, want: map<int, Service>, chosen: SvcCheck)
    requires Keyed(want)
    ensures Settles(Synced(now, want, chosen), want) <==> Settles(now, want)
  {
    SyncReachesIff(now, want, chosen);
    var after := Synced(now, want, chosen);
    if Settles(now, want) {
      forall p | p in want ensures Agrees(after, want, p) { assert p !in Disagreeing(after, want); }
    } else {
      var p :| p in want && !Agrees(now, want, p) && !if p in now then Takes(now[p], want[p]) else Normal(want[p]);
      var was := if p in now then now[p] else Blank(want[p], chosen);
      assert after[p] == Updated(was, want[p]);
      UpdateTakesIff(was, want[p]);
      NeverTakes(was, want[p]);
    }
  }

  /** Trying again does not help: one sync or a hundred, the wanted services are reached exactly
      if every call of the first one takes. */
  lemma {:induction false} SyncsReachIff(now: Ports, want: map<int, Service>, chosen: seq<SvcCheck>)
    requires Keyed(want) && |chosen| > 0
    ensures Disagreeing(Syncs(now, want, chosen), want) == {} <==> Settles(now, want)
    decreases |chosen|
  {
    SyncReachesIff(now, want, chosen[0]);
    if |chosen| > 1 {
      StaysUnsettled(now, want, chosen[0]);
      SyncsReachIff(Synced(now, want, chosen[0]), want, chosen[1..]);
    } else {
      assert chosen[1..] == [];
    }
  }

  /** What reading the cloud back after a sync shows, next to what the in-memory cloud would
      hold after replacing its services: the same ports, and on each a service with the wanted
      protocol, destination, proxy flag, certificates and, if one is wanted, health check. */
  lemma SyncRefinesReplacement(now: Ports, desired: seq<Service>, chosen: SvcCheck)
    requires Settles(now, ByPort(desired))
    requires forall i, j :: 0 <= i < j < |desired| ==> desired[i].listen != desired[j].listen
    ensures var after := Synced(now, ByPort(desired), chosen);
            && (forall p :: p in after <==> exists i :: 0 <= i < |desired| && desired[i].listen == p)
            && (forall i :: 0 <= i < |desired| ==>
                  desired[i].listen in after && ServicesEqual(FromCloud(after[desired[i].listen]), desired[i])
                  && Holds(after[desired[i].listen], desired[i]))
  {
    var want := ByPort(desired);
    ByPortKeyed(desired);
    SyncReachesIff(now, want, chosen);
    ByPortFinds(desired);
    var after := Synced(now, want, chosen);
    forall i | 0 <= i < |desired|
      ensures desired[i].listen in after && ServicesEqual(FromCloud(after[desired[i].listen]), desired[i])
      ensures Holds(after[desired[i].listen], desired[i])
    {
      var p := desired[i].listen;
      assert p !in Disagreeing(after, want);
      assert Agrees(after, want, p);
      HoldsIff(after[p], desired[i]);
    }
  }

  lemma {:induction false} ByPortFinds(desired: seq<Service>)
    ensures forall p :: p in ByPort(desired) <==> exists i :: 0 <= i < |desired| && desired[i].listen == p
    ensures (forall i, j :: 0 <= i < j < |desired| ==> desired[i].listen != desired[j].listen)
            ==> forall i :: 0 <= i < |desired| ==> ByPort(desired)[desired[i].listen] == desired[i]
    decreases |desired|
  {
    if |desired| > 0 {
      var n := |desired| - 1;
      ByPortFinds(desired[..n]);
      forall p ensures p in ByPort(desired) <==> exists i :: 0 <= i < |desired| && desired[i].listen == p {
        if p in ByPort(desired[..n]) {
          var i :| 0 <= i < n && desired[..n][i].listen == p;
          assert desired[i].listen == p;
        }
        if exists i :: 0 <= i < |desired| && desired[i].listen == p {
          var i :| 0 <= i < |desired| && desired[i].listen == p;
          if i < n { assert desired[..n][i].listen == p; }
        }
      }
    }
  }

  // ---------- part of the way through a diff ----------

  /** The services when the ports in `done` are as the sync leaves them and the others as they
      were. */
  function Mix(before: Ports, want: map<int, Service>, done: set<int>, chosen: SvcCheck): Ports {
    map p | p in before.Keys + want.Keys && (if p in done then p in want else p in before) ::
      if p in done then Synced(before, want, chosen)[p] else before[p]
  }

  ghost predicate PartWay(now: Ports, before: Ports, want: map<int, Service>, done: set<int>, chosen: SvcCheck) {
    done <= Disagreeing(before, want) && now == Mix(before, want, done, chosen)
  }

  lemma NothingDone(before: Ports, want: map<int, Service>, chosen: SvcCheck)
    ensures PartWay(before, before, want, {}, chosen)
    ensures Disagreeing(before, want) - want.Keys == before.Keys - want.Keys
  {
  }

  lemma DeleteStep(now: Ports, before: Ports, want: map<int, Service>, done: set<int>, chosen: SvcCheck, p: int)
    requires PartWay(now, before, want, done, chosen) && p in before && p !in want
    ensures PartWay(now - {p}, before, want, done + {p}, chosen)
  {
  }

  lemma SetStep(now: Ports, before: Ports, want: map<int, Service>, done: set<int>, chosen: SvcCheck, p: int)
    requires PartWay(now, before, want, done, chosen) && p in Disagreeing(before, want) && p in want
    ensures PartWay(now[p := Synced(before, want, chosen)[p]], before, want, done + {p}, chosen)
    ensures p !in done ==> (p in now <==> p in before) && (p in now ==> now[p] == before[p])
  {
  }

  lemma DoneIsSynced(now: Ports, before: Ports, want: map<int, Service>, done: set<int>, chosen: SvcCheck)
    requires PartWay(now, before, want, done, chosen) && done == Disagreeing(before, want)
    ensures now == Synced(before, want, chosen)
  {
    var s := Synced(before, want, chosen);
    forall p ensures (p in now <==> p in s) && (p in now ==> now[p] == s[p]) {
      if p !in done { assert Agrees(before, want, p); }
    }
  }

  /** When every call takes, exactly the ports dealt with no longer disagree: each call lowers
      the count by one. */
  lemma LeftOver(now: Ports, before: Ports, want: map<int, Service>, done: set<int>, chosen: SvcCheck)
    requires PartWay(now, before, want, done, chosen) && Keyed(want)
    ensures Settles(before, want) ==> Disagreeing(now, want) == Disagreeing(before, want) - done
  {
    if Settles(before, want) {
      SyncReachesIff(before, want, chosen);
      forall p ensures p in Disagreeing(now, want) <==> p in Disagreeing(before, want) && p !in done {
        if p in done && p in want {
          assert p !in Disagreeing(Synced(before, want, chosen), want);
          assert now[p] == Synced(before, want, chosen)[p];
        }
      }
    }
  }

  // ---------- the diff, in place ----------

  datatype Call = DeleteService(port: int) | AddService(want: Service) | UpdateService(port: int, want: Service)

  /** The calls made since `was`: deletions first, as far as `mid`, then none. */
  ghost predicate DeletesFirst(was: seq<Call>, now: seq<Call>, mid: nat) {
    && was <= now && |was| <= mid <= |now|
    && (forall i :: |was| <= i < mid ==> now[i].DeleteService?)
    && (forall i :: mid <= i < |now| ==> !now[i].DeleteService?)
  }

  /** One load balancer's services in the cloud, and the calls made to them. */
  class ServiceCloud {
    const chosen: SvcCheck
    var services: Ports
    var log: seq<Call>

    constructor (services: Ports, chosen: SvcCheck)
      ensures this.services == services && this.chosen == chosen && log == []
    {
      this.services, this.chosen, log := services, chosen, [];
    }

    method Delete(port: int, fate: Fate) returns (ok: bool)
      modifies this
      ensures services == (if fate.Refused? then old(services) else old(services) - {port})
      ensures log == (if fate.Refused? then old(log) else old(log) + [DeleteService(port)])
      ensures ok == fate.Works?
    {
      if fate.Refused? { return false; }
      services, log := services - {port}, log + [DeleteService(port)];
      ok := fate.Works?;
    }

    method Add(want: Service, fate: Fate) returns (ok: bool)
      modifies this
      ensures services == (if fate.Refused? then old(services) else old(services)[want.listen := Added(want, chosen)])
      ensures log == (if fate.Refused? then old(log) else old(log) + [AddService(want)])
      ensures ok == fate.Works?
    {
      if fate.Refused? { return false; }
      services, log := services[want.listen := Added(want, chosen)], log + [AddService(want)];
      ok := fate.Works?;
    }

    method Update(port: int, want: Service, fate: Fate) returns (ok: bool)
      requires port in services
      modifies this
      ensures services == if fate.Refused? then old(services)
                          else old(services)[port := Updated(old(services)[port], want)]
      ensures log == (if fate.Refused? then old(log) else old(log) + [UpdateService(port, want)])
      ensures ok == fate.Works?
    {
      if fate.Refused? { return false; }
      services, log := services[port := Updated(services[port], want)], log + [UpdateService(port, want)];
      ok := fate.Works?;
    }

    /** One delete of the diff. */
    method DropPort(p: int, fate: Fate,
                    ghost before: Ports, ghost want: map<int, Service>, ghost done0: set<int>, ghost was: seq<Call>)
      returns (ok: bool, ghost done: set<int>)
      requires DeletesFirst(was, log, |log|)
      requires PartWay(services, before, want, done0, chosen)
      requires p in before && p !in want && p !in done0
      modifies this
      ensures PartWay(services, before, want, done, chosen) && |log| - |done| == |old(log)| - |done0|
      ensures done == done0 || done == done0 + {p}
      ensures ok ==> done == done0 + {p}
      ensures DeletesFirst(was, log, |log|)
    {
      DeleteStep(services, before, want, done0, chosen, p);
      ok := Delete(p, fate);
      done := if fate.Refused? then done0 else done0 + {p};
    }

    /** One add or update of the diff. */
    method SetPort(p: int, want: Service, known: bool, fate: Fate,
                   ghost before: Ports, ghost wants: map<int, Service>, ghost done0: set<int>,
                   ghost was: seq<Call>, ghost mid: nat)
      returns (ok: bool, ghost done: set<int>)
      requires DeletesFirst(was, log, mid)
      requires PartWay(services, before, wants, done0, chosen)
      requires p in wants && wants[p] == want && want.listen == p
      requires p in Disagreeing(before, wants) && p !in done0 && (known <==> p in before)
      modifies this
      ensures PartWay(services, before, wants, done, chosen) && |log| - |done| == |old(log)| - |done0|
      ensures done == done0 || done == done0 + {p}
      ensures ok ==> done == done0 + {p}
      ensures DeletesFirst(was, log, mid)
    {
      SetStep(services, before, wants, done0, chosen, p);
      if known { ok := Update(p, want, fate); } else { ok := Add(want, fate); }
      done := if fate.Refused? then done0 else done0 + {p};
    }

    method DeleteUnwanted(want: map<int, Service>, fates: nat -> Fate) returns (ok: bool, n: nat, ghost done: set<int>)
      modifies this
      ensures PartWay(services, old(services), want, done, chosen) && |log| == |old(log)| + |done|
      ensures ok ==> done == old(services).Keys - want.Keys
      ensures DeletesFirst(old(log), log, |log|)
    {
      ghost var before, was := services, log;
      var left := services.Keys;
      ok, n, done := true, 0, {};
      NothingDone(before, want, chosen);
      while left != {} && ok
        invariant left <= before.Keys
        invariant PartWay(services, before, want, done, chosen) && |log| == |old(log)| + |done|
        invariant forall q :: q in done ==> q in before && q !in left && q !in want
        invariant DeletesFirst(was, log, |log|)
        invariant ok ==> forall q :: q in before && q !in left && q !in want ==> q in done
        decreases |left|
      {
        var p :| p in left;
        left := left - {p};
        if p !in want {
          ok, done := DropPort(p, fates(n), before, want, done, was);
          n := n + 1;
        }
      }
    }

    method AddOrUpdate(want: map<int, Service>, current: map<int, Service>, fates: nat -> Fate, n0: nat,
                       ghost before: Ports, ghost done0: set<int>, ghost was: seq<Call>, ghost mid: nat)
      returns (ok: bool, ghost done: set<int>)
      requires DeletesFirst(was, log, mid)
      requires Keyed(want) && current == map p | p in before :: FromCloud(before[p])
      requires PartWay(services, before, want, done0, chosen) && done0 == before.Keys - want.Keys
      modifies this
      ensures PartWay(services, before, want, done, chosen)
      ensures |log| - |done| == |old(log)| - |done0|
      ensures ok ==> done == Disagreeing(before, want)
      ensures DeletesFirst(was, log, mid)
    {
      var n, left := n0, want.Keys;
      ok, done := true, done0;
      NothingDone(before, want, chosen);
      while left != {} && ok
        invariant left <= want.Keys
        invariant PartWay(services, before, want, done, chosen) && |log| - |done| == |old(log)| - |done0|
        invariant forall q :: q in done ==> q !in left
        invariant DeletesFirst(was, log, mid)
        invariant ok ==> forall q :: q in Disagreeing(before, want) && q !in left ==> q in done
        decreases |left|
      {
        var p :| p in left;
        left := left - {p};
        if !(p in current && ServicesEqual(current[p], want[p])) {
          assert p in Disagreeing(before, want);
          ok, done := SetPort(p, want[p], p in current, fates(n), before, want, done, was, mid);
          n := n + 1;
        }
      }
    }

    /** Delete what is not wanted, then add and update, in whatever order the maps yield the
        ports.  Whether or not a call fails, every call made deals with one disagreeing port
        for good; without a failure all of them are dealt with. */
    method SyncLoadBalancerServices(desired: seq<Service>, fates: nat -> Fate) returns (ok: bool, ghost done: set<int>)
      modifies this
      ensures PartWay(services, old(services), ByPort(desired), done, chosen) && |log| == |old(log)| + |done|
      ensures ok ==> done == Disagreeing(old(services), ByPort(desired))
      ensures ok ==> services == Synced(old(services), ByPort(desired), chosen)
      ensures ok && Settles(old(services), ByPort(desired)) ==>
                services.Keys == ByPort(desired).Keys && AllHeld(services, ByPort(desired))
      ensures Settles(old(services), ByPort(desired)) ==>
                Disagreeing(services, ByPort(desired)) == Disagreeing(old(services), ByPort(desired)) - done
      ensures exists mid :: DeletesFirst(old(log), log, mid)
    {
      var want := ByPort(desired);
      ByPortKeyed(desired);
      var current := map p | p in services :: FromCloud(services[p]);
      ghost var before, was := services, log;
      var n;
      ok, n, done := DeleteUnwanted(want, fates);
      ghost var mid := |log|;
      if ok { ok, done := AddOrUpdate(want, current, fates, n, before, done, was, mid); }
      assert DeletesFirst(was, log, mid);
      LeftOver(services, before, want, done, chosen);
      if ok {
        DoneIsSynced(services, before, want, done, chosen);
        SettledHolds(before, want, chosen);
      }
    }
  }
}
