/** The routing table derived from the registry: what each record offers, and how the offers
    become routes. */
module RegistryRoutes {
  import opened Wrappers
  import opened Text
  import opened Tables
  import opened RegistryState
  import opened RegistryLaws

  datatype RouteKind = WebsiteRoute | ExposureRoute | CustomDomainRoute

  datatype Route = Route(
    domain: string, upstream: string, toolId: string, kind: RouteKind,
    hardened: bool, protectionLevel: string, requiresAuth: bool, maintenance: Option<Window>)

  /** A route to a tool, if the tool is registered with an upstream. */
  function RouteTo(s: State, domain: string, toolId: string, kind: RouteKind): Option<Route> {
    match GetTool(s, toolId)
    case None => None
    case Some(t) =>
      if t.upstreamUrl.GetOr("") == "" then None
      else Some(Route(domain, t.upstreamUrl.value, toolId, kind,
                      t.phantom.Some? && t.phantom.value.claimedSecured && t.phantom.value.compliant,
                      if t.phantom.Some? then t.phantom.value.level else "transitional",
                      t.requiresAuth == Some(true), None))
  }

  function OfferOfAddress(s: State, a: Address): Option<Route> {
    if a.status != AddressActive || Blocked(s, ExposureScope, AddressSubject(a.toolId, a.kind)) then None
    else RouteTo(s, WithoutScheme(a.publicAddress), a.toolId, WebsiteRoute)
  }

  function OfferOfExposure(s: State, e: Exposure): Option<Route> {
    if e.status != ExposureActive || Blocked(s, ExposureScope, ExposureSubject(e.toolId)) then None
    else RouteTo(s, WithoutScheme(e.publicUrl), e.toolId, ExposureRoute)
  }

  function OfferOfDomain(s: State, d: Domain): Option<Route> {
    if d.status != DomainVerified || Blocked(s, DomainScope, DomainSubject(d.toolId, d.domain)) then None
    else RouteTo(s, d.domain, d.toolId, CustomDomainRoute)
  }

  function Collect<R>(records: seq<R>, offer: R -> Option<Route>): seq<Route> {
    if records == [] then []
    else
      Collect(records[..|records| - 1], offer) +
      match offer(records[|records| - 1]) case None => [] case Some(r) => [r]
  }

  /** Everything the registry offers, addresses before exposures before domains. */
  function Offers(s: State): seq<Route> {
    Collect(s.addresses, a => OfferOfAddress(s, a))
    + Collect(s.exposures, e => OfferOfExposure(s, e))
    + Collect(s.domains, d => OfferOfDomain(s, d))
  }

  function Key(r: Route): string {
    r.domain + ":" + r.toolId
  }

  predicate HasKey(routes: seq<Route>, key: string) {
    exists i :: 0 <= i < |routes| && Key(routes[i]) == key
  }

  /** Adds the offers whose key is new. */
  function Merge(routes: seq<Route>, offers: seq<Route>): seq<Route> {
    if offers == [] then routes
    else
      var r := Merge(routes, offers[..|offers| - 1]);
      var last := offers[|offers| - 1];
      if HasKey(r, Key(last)) then r else r + [last]
  }

  /** The first window over the route's domain or its tool. */
  function WindowFor(ws: seq<Window>, r: Route): Option<Window> {
    if ws == [] then None
    else if ws[0].subjectId == r.domain || ws[0].subjectId == r.toolId then Some(ws[0])
    else WindowFor(ws[1..], r)
  }

  function Annotated(ws: seq<Window>, routes: seq<Route>): seq<Route> {
    seq(|routes|, (i: nat) requires i < |routes| => routes[i].(maintenance := WindowFor(ws, routes[i])))
  }

  function ActiveRoutes(s: State): seq<Route> {
    Annotated(s.maintenance, Merge([], Offers(s)))
  }

  // ---------- the table is what the records say ----------

  /** The record behind an offer: active or verified, not blocked, its tool with an upstream. */
  ghost predicate Offered(s: State, r: Route) {
    || (exists a :: a in s.addresses && OfferOfAddress(s, a) == Some(r))
    || (exists e :: e in s.exposures && OfferOfExposure(s, e) == Some(r))
    || (exists d :: d in s.domains && OfferOfDomain(s, d) == Some(r))
  }

  lemma {:induction false} CollectMembers<R>(records: seq<R>, offer: R -> Option<Route>)
    ensures forall r :: r in Collect(records, offer) ==> exists x :: x in records && offer(x) == Some(r)
    ensures forall x :: x in records && offer(x).Some? ==> offer(x).value in Collect(records, offer)
    decreases |records|
  {
    if records != [] {
      var n := |records| - 1;
      CollectMembers(records[..n], offer);
      assert records == records[..n] + [records[n]];
    }
  }

  lemma OffersAreOffered(s: State)
    ensures forall r :: r in Offers(s) <==> Offered(s, r)
  {
    hide OfferOfAddress, OfferOfExposure, OfferOfDomain;
    CollectMembers(s.addresses, a => OfferOfAddress(s, a));
    CollectMembers(s.exposures, e => OfferOfExposure(s, e));
    CollectMembers(s.domains, d => OfferOfDomain(s, d));
    forall r ensures r in Offers(s) <==> Offered(s, r) {
    }
  }

  ghost predicate DistinctKeys(routes: seq<Route>) {
    forall i, j :: 0 <= i < j < |routes| ==> Key(routes[i]) != Key(routes[j])
  }

  lemma Extended(routes: seq<Route>, last: Route)
    requires DistinctKeys(routes) && !HasKey(routes, Key(last))
    ensures DistinctKeys(routes + [last]) && HasKey(routes + [last], Key(last))
    ensures forall key :: HasKey(routes, key) ==> HasKey(routes + [last], key)
  {
    var m := routes + [last];
    assert m[|routes|] == last;
    forall key | HasKey(routes, key) ensures HasKey(m, key) {
      var i :| 0 <= i < |routes| && Key(routes[i]) == key;
      assert m[i] == routes[i];
    }
  }

  lemma {:induction false} MergeMembers(routes: seq<Route>, offers: seq<Route>)
    requires DistinctKeys(routes)
    ensures DistinctKeys(Merge(routes, offers))
    ensures forall r :: r in Merge(routes, offers) ==> r in routes || r in offers
    ensures forall key :: HasKey(routes, key) ==> HasKey(Merge(routes, offers), key)
    ensures forall r :: r in offers ==> HasKey(Merge(routes, offers), Key(r))
    decreases |offers|
  {
    hide DistinctKeys, HasKey, Key;
    if offers != [] {
      var last := offers[|offers| - 1];
      var before := Merge(routes, offers[..|offers| - 1]);
      MergeMembers(routes, offers[..|offers| - 1]);
      assert offers == offers[..|offers| - 1] + [last];
      if !HasKey(before, Key(last)) { Extended(before, last); }
    }
  }

  /** The routing table refines the records. No key appears twice; every route is an offer,
      with nothing but its maintenance note added; and the keys listed are exactly the keys
      offered by active or verified records whose subject no guardian decision blocks and
      whose tool has an upstream. */
  lemma RoutesRefineRecords(s: State)
    ensures DistinctKeys(ActiveRoutes(s))
    ensures forall r :: r in ActiveRoutes(s) ==>
      Offered(s, r.(maintenance := None)) && r.maintenance == WindowFor(s.maintenance, r)
    ensures forall r :: Offered(s, r) ==> HasKey(ActiveRoutes(s), Key(r))
  {
    hide Offered, Offers, Merge, HasKey, Annotated;
    OffersAreOffered(s);
    MergeMembers([], Offers(s));
    var merged := Merge([], Offers(s));
    AnnotatedKeys(s.maintenance, merged);
    forall r | r in ActiveRoutes(s)
      ensures Offered(s, r.(maintenance := None)) && r.maintenance == WindowFor(s.maintenance, r)
    {
      var m := AnnotatedFrom(s.maintenance, merged, r);
      OfferUnannotated(s, m);
      assert r.(maintenance := None) == m;
    }
  }

  lemma AnnotatedKeys(ws: seq<Window>, routes: seq<Route>)
    ensures DistinctKeys(routes) ==> DistinctKeys(Annotated(ws, routes))
    ensures forall key :: HasKey(routes, key) ==> HasKey(Annotated(ws, routes), key)
  {
    hide WindowFor;
    var noted := Annotated(ws, routes);
    assert forall i :: 0 <= i < |routes| ==> Key(noted[i]) == Key(routes[i]);
  }

  lemma AnnotatedFrom(ws: seq<Window>, routes: seq<Route>, r: Route) returns (m: Route)
    requires r in Annotated(ws, routes)
    ensures m in routes && r == m.(maintenance := r.maintenance) && r.maintenance == WindowFor(ws, r)
  {
    var noted := Annotated(ws, routes);
    var i :| 0 <= i < |noted| && noted[i] == r;
    m := routes[i];
    SameWindow(ws, m, r);
  }

  lemma OfferUnannotated(s: State, r: Route)
    requires Offered(s, r)
    ensures r.maintenance == None
  {
  }

  lemma {:induction false} SameWindow(ws: seq<Window>, a: Route, b: Route)
    requires a.domain == b.domain && a.toolId == b.toolId
    ensures WindowFor(ws, a) == WindowFor(ws, b)
  {
    if ws != [] {
      SameWindow(ws[1..], a, b);
    }
  }

  /** Maintenance neither adds, drops nor reorders routes; it only annotates them. */
  lemma MaintenanceOnlyAnnotates(s: State, ws: seq<Window>)
    ensures var other := ActiveRoutes(s.(maintenance := ws));
      && |other| == |ActiveRoutes(s)|
      && forall i :: 0 <= i < |other| ==>
           other[i].(maintenance := None) == ActiveRoutes(s)[i].(maintenance := None)
  {
    var t := s.(maintenance := ws);
    CollectSame(s.addresses, a => OfferOfAddress(s, a), a => OfferOfAddress(t, a));
    CollectSame(s.exposures, e => OfferOfExposure(s, e), e => OfferOfExposure(t, e));
    CollectSame(s.domains, d => OfferOfDomain(s, d), d => OfferOfDomain(t, d));
    assert Offers(t) == Offers(s);
  }

  lemma {:induction false} CollectSame<R>(records: seq<R>, f: R -> Option<Route>, g: R -> Option<Route>)
    requires forall x :: f(x) == g(x)
    ensures Collect(records, f) == Collect(records, g)
    decreases |records|
  {
    if records != [] {
      CollectSame(records[..|records| - 1], f, g);
    }
  }

  // ---------- revocation and the table ----------

  /** A successful exposure revocation takes every route of the tool away, and no run of other
      operations brings one back until something is requested or verified for the tool. */
  lemma RevokedToolStaysUnrouted(s: State, id: string, at: int, ops: seq<(Op, int)>)
    requires Consistent(s) && Find(s.exposures, BY_EXPOSURE_TOOL, id).Some?
    requires NeverGranted(After(s, RevokeExposure(id), at), ops, id)
    ensures forall r :: r in ActiveRoutes(Run(After(s, RevokeExposure(id), at), ops)) ==> r.toolId != id
  {
    hide Run, NeverGranted, Consistent, AfterExposureRevocation, ActiveRoutes;
    ExposureRevocationKeeps(s, id, at);
    UnbackedLasts(After(s, RevokeExposure(id), at), ops, id);
    UnbackedIsUnrouted(Run(After(s, RevokeExposure(id), at), ops), id);
  }

  lemma UnbackedIsUnrouted(s: State, id: string)
    requires Unbacked(s, id)
    ensures forall r :: r in ActiveRoutes(s) ==> r.toolId != id
  {
    hide ActiveRoutes;
    RoutesRefineRecords(s);
    forall r | r in ActiveRoutes(s) ensures r.toolId != id {
      assert Offered(s, r.(maintenance := None));
    }
  }

  // ---------- where a guardian decision does not reach ----------

  lemma SubjectsDiffer(id: string, kind: AddressKind)
    ensures AddressSubject(id, kind) != ExposureSubject(id)
  {
    assert AddressSubject(id, kind)[|id| + 1] == 'a';
    assert ExposureSubject(id)[|id| + 1] == 'e';
  }

  /** A granted website request activates an exposure with the address's own text, decided
      under another subject. */
  lemma WebsiteRequestActivatesExposure(s: State, tool: Tool, subject: Option<string>, host: Option<string>, at: int)
    requires Consistent(s)
    ensures var n := AfterAddressRequest(s, tool, Website, subject, host, Cleared, at);
      exists a, e :: a in n.addresses && e in n.exposures && a.toolId == tool.id && e.toolId == tool.id
        && a.status == AddressActive && e.status == ExposureActive && a.publicAddress == e.publicUrl
  {
    hide BuildPublicAddress, NormalizeSubject;
    var text := BuildPublicAddress(s.cloudDomain, tool.id, Website, subject, host);
    var a := CreateAddress(tool.id, Website, NormalizeSubject(subject, tool.id), text, AddressActive, at);
    var e := match Find(s.exposures, BY_EXPOSURE_TOOL, tool.id)
      case Some(e) => TransitionExposure(e, ExposureActive, text, at)
      case None => CreateExposure(tool.id, text, ExposureActive, at);
    UpsertMembers(s.addresses, BY_ADDRESS, a);
    UpsertMembers(s.exposures, BY_EXPOSURE_TOOL, e);
    var n := AfterAddressRequest(s, tool, Website, subject, host, Cleared, at);
    assert a in n.addresses && e in n.exposures;
  }

  /** The routing table's documentation says a blocking decision on a tool takes its routes
      away. The table looks decisions up per record: denying an address on record blocks that
      address, and leaves whatever key the tool's active exposure offers in the table. */
  lemma DenialIsPerRecord(s: State, e: Exposure, kind: AddressKind, at: int)
    requires Consistent(s) && e in s.exposures && OfferOfExposure(s, e).Some?
    requires Find(s.decisions, BY_SUBJECT, (ExposureScope, AddressSubject(e.toolId, kind))).Some?
    ensures var denied := After(s, Rule(ExposureScope, AddressSubject(e.toolId, kind), Denied), at);
      && Blocked(denied, ExposureScope, AddressSubject(e.toolId, kind))
      && HasKey(ActiveRoutes(denied), Key(OfferOfExposure(s, e).value))
  {
    hide ActiveRoutes, OfferOfExposure, AddressSubject, ExposureSubject, HasKey, Consistent, Blocked;
    var d := Find(s.decisions, BY_SUBJECT, (ExposureScope, AddressSubject(e.toolId, kind))).value;
    SubjectsDiffer(e.toolId, kind);
    OtherSubjectDecided(s, d.(status := Denied), e);
    DeniedIsBlocked(s, d.(status := Denied));
    ExposureIsRouted(After(s, Rule(ExposureScope, AddressSubject(e.toolId, kind), Denied), at), e);
  }

  lemma DeniedIsBlocked(s: State, d: Decision)
    requires d.status == Denied
    ensures Blocked(RecordDecision(s, d), d.scope, d.subjectId)
  {
    FindUpsert(s.decisions, BY_SUBJECT, d, (d.scope, d.subjectId));
  }

  /** The run that shows it: a tool registers, is granted a website, and has that address
      denied. The address is blocked, and its host is still routed to the tool. */
  lemma DeniedHostStaysRouted(cloudDomain: string, input: Registering, facts: HostFacts, at: int)
    requires input.health == Some(Healthy) && Trim(input.upstreamUrl.GetOr("")) != ""
    requires facts.hostValid && facts.hostLocal
    ensures var subject := AddressSubject(input.id, Website);
      var granted := Run(Empty(cloudDomain),
                         [(Register(input), at), (RequestAddress(input.id, Website, None, None, facts), at)]);
      var denied := After(granted, Rule(ExposureScope, subject, Denied), at);
      && Blocked(denied, ExposureScope, subject)
      && exists a :: a in granted.addresses && a.status == AddressActive
           && HasKey(ActiveRoutes(denied), WithoutScheme(a.publicAddress) + ":" + input.id)
  {
    hide ActiveRoutes, HasKey, BuildPublicAddress, NormalizeSubject, Consistent, WithoutScheme;
    var empty := Empty(cloudDomain);
    var ops := [(Register(input), at), (RequestAddress(input.id, Website, None, None, facts), at)];
    var tool := BuildTool(input, None, at);
    var registered := empty.(tools := [tool]);
    assert ops[..1] == [(Register(input), at)] && ops[..1][..0] == [];
    assert Run(empty, ops[..1]) == registered;
    var granted := Run(empty, ops);
    assert granted == After(registered, ops[1].0, at);
    UpstreamNotEmpty(input.upstreamUrl);
    GrantedWebsite(registered, tool, facts, at);
    var e := granted.exposures[0];
    assert granted.addresses[0] in granted.addresses;
    EmptyConsistent(cloudDomain);
    RunConsistent(empty, ops);
    DenialIsPerRecord(granted, e, Website, at);
  }

  lemma UpstreamNotEmpty(upstream: Option<string>)
    requires Trim(upstream.GetOr("")) != ""
    ensures upstream.GetOr("") != ""
  {
  }

  /** The state after a tool's first website request is cleared. */
  lemma GrantedWebsite(s: State, tool: Tool, facts: HostFacts, at: int)
    requires s == Empty(s.cloudDomain).(tools := [tool])
    requires tool.registration == Registered && tool.health == Healthy && Trim(tool.upstreamUrl.GetOr("")) != ""
    requires tool.upstreamUrl.GetOr("") != "" && facts.hostValid && facts.hostLocal
    ensures var n := After(s, RequestAddress(tool.id, Website, None, None, facts), at);
      && |n.addresses| == 1 && n.addresses[0].status == AddressActive && |n.exposures| == 1
      && n.exposures[0].toolId == tool.id && n.exposures[0].publicUrl == n.addresses[0].publicAddress
      && OfferOfExposure(n, n.exposures[0]).Some?
      && Key(OfferOfExposure(n, n.exposures[0]).value) ==
           WithoutScheme(n.addresses[0].publicAddress) + ":" + tool.id
      && Find(n.decisions, BY_SUBJECT, (ExposureScope, AddressSubject(tool.id, Website))).Some?
  {
    hide BuildPublicAddress, NormalizeSubject, WithoutScheme, AddressSubject, ExposureSubject, Trim;
    SubjectsDiffer(tool.id, Website);
    var n := After(s, RequestAddress(tool.id, Website, None, None, facts), at);
    assert EvaluateGuardianRequest(Some(tool), None, facts) == Cleared;
    assert n.decisions == [Decision(ExposureScope, AddressSubject(tool.id, Website), tool.id, Cleared)];
    assert GetTool(n, tool.id).Some? && GetTool(n, tool.id).value.upstreamUrl == tool.upstreamUrl;
  }

  // ---------- when a tool has routes ----------

  ghost predicate HasUpstream(s: State, id: string) {
    GetTool(s, id).Some? && GetTool(s, id).value.upstreamUrl.GetOr("") != ""
  }

  /** A live record of the tool whose own subject no decision blocks. */
  ghost predicate HasOpenRecord(s: State, id: string) {
    || (exists a :: a in s.addresses && a.toolId == id && a.status == AddressActive
                    && !Blocked(s, ExposureScope, AddressSubject(id, a.kind)))
    || (exists e :: e in s.exposures && e.toolId == id && e.status == ExposureActive
                    && !Blocked(s, ExposureScope, ExposureSubject(id)))
    || (exists d :: d in s.domains && d.toolId == id && d.status == DomainVerified
                    && !Blocked(s, DomainScope, DomainSubject(id, d.domain)))
  }

  /** A tool is offered a route exactly when it has an upstream and an open record. */
  lemma OfferedIff(s: State, id: string)
    ensures (exists r :: Offered(s, r) && r.toolId == id) <==> HasUpstream(s, id) && HasOpenRecord(s, id)
  {
    hide Blocked, WithoutScheme, AddressSubject, ExposureSubject, DomainSubject;
    if HasUpstream(s, id) {
      forall a | a in s.addresses && a.toolId == id && OfferOfAddress(s, a).Some?
        ensures exists r :: Offered(s, r) && r.toolId == id
      {
        assert Offered(s, OfferOfAddress(s, a).value);
      }
      forall e | e in s.exposures && e.toolId == id && OfferOfExposure(s, e).Some?
        ensures exists r :: Offered(s, r) && r.toolId == id
      {
        assert Offered(s, OfferOfExposure(s, e).value);
      }
      forall d | d in s.domains && d.toolId == id && OfferOfDomain(s, d).Some?
        ensures exists r :: Offered(s, r) && r.toolId == id
      {
        assert Offered(s, OfferOfDomain(s, d).value);
      }
    }
  }

  /** No earlier offer has the same key. */
  ghost predicate First(offers: seq<Route>, i: nat)
    requires i < |offers|
  {
    forall j :: 0 <= j < i ==> Key(offers[j]) != Key(offers[i])
  }

  lemma {:induction false} MergedKeys(offers: seq<Route>, key: string)
    ensures HasKey(Merge([], offers), key) <==> HasKey(offers, key)
    decreases |offers|
  {
    hide HasKey, Key;
    MergeMembers([], offers);
    KeyHad(offers, key);
    KeyHad(Merge([], offers), key);
  }

  lemma KeyHad(routes: seq<Route>, key: string)
    ensures HasKey(routes, key) <==> exists r :: r in routes && Key(r) == key
  {
    hide Key;
    if exists r :: r in routes && Key(r) == key {
      var r :| r in routes && Key(r) == key;
      var i :| 0 <= i < |routes| && routes[i] == r;
      assert Key(routes[i]) == key;
    }
  }

  /** The merged table keeps the first offer under each key: where keys collide, every later
      offer is dropped. */
  lemma {:induction false} MergeKeepsFirst(offers: seq<Route>, r: Route)
    ensures r in Merge([], offers) <==> exists i :: 0 <= i < |offers| && First(offers, i) && offers[i] == r
    decreases |offers|
  {
    hide Key, HasKey;
    if offers != [] {
      var n := |offers| - 1;
      var before := offers[..n];
      MergeKeepsFirst(before, r);
      MergedKeys(before, Key(offers[n]));
      FirstIsNew(offers);
      forall i | 0 <= i < n ensures First(before, i) <==> First(offers, i) {
        assert forall j :: 0 <= j <= i ==> before[j] == offers[j];
      }
      if exists i :: 0 <= i < n && First(before, i) && before[i] == r {
        var i :| 0 <= i < n && First(before, i) && before[i] == r;
        assert First(offers, i) && offers[i] == r;
      }
      if exists i :: 0 <= i < |offers| && First(offers, i) && offers[i] == r {
        var i :| 0 <= i < |offers| && First(offers, i) && offers[i] == r;
        if i < n { assert First(before, i) && before[i] == r; }
      }
    }
  }

  lemma FirstIsNew(offers: seq<Route>)
    requires offers != []
    ensures var n := |offers| - 1; First(offers, n) <==> !HasKey(offers[..n], Key(offers[n]))
  {
    hide Key;
  }

  /** A tool is in the routing table exactly when one of its offers is the first under its key. */
  lemma RoutedIff(s: State, id: string)
    ensures (exists r :: r in ActiveRoutes(s) && r.toolId == id) <==>
      exists i :: 0 <= i < |Offers(s)| && First(Offers(s), i) && Offers(s)[i].toolId == id
  {
    hide Offers, Merge, Annotated, First;
    var offers := Offers(s);
    var merged := Merge([], offers);
    if exists r :: r in ActiveRoutes(s) && r.toolId == id {
      var r :| r in ActiveRoutes(s) && r.toolId == id;
      var m := AnnotatedFrom(s.maintenance, merged, r);
      MergeKeepsFirst(offers, m);
    }
    if exists i :: 0 <= i < |offers| && First(offers, i) && offers[i].toolId == id {
      var i :| 0 <= i < |offers| && First(offers, i) && offers[i].toolId == id;
      MergeKeepsFirst(offers, offers[i]);
      AnnotatedHas(s.maintenance, merged, offers[i]);
    }
  }

  lemma AnnotatedHas(ws: seq<Window>, routes: seq<Route>, r: Route)
    requires r in routes
    ensures exists a :: a in Annotated(ws, routes) && a.toolId == r.toolId
  {
    var noted := Annotated(ws, routes);
    var i :| 0 <= i < |routes| && routes[i] == r;
    assert noted[i] in noted && noted[i].toolId == r.toolId;
  }

  lemma {:induction false} FirstUnder(offers: seq<Route>, n: nat) returns (i: nat)
    requires n < |offers|
    ensures i <= n && First(offers, i) && Key(offers[i]) == Key(offers[n])
    decreases n
  {
    hide Key;
    i := n;
    if !First(offers, n) {
      var j :| 0 <= j < n && Key(offers[j]) == Key(offers[n]);
      i := FirstUnder(offers, j);
    }
  }

  /** Keys of different tools cannot collide when tool ids have no colon. */
  lemma SameKeySameTool(a: Route, b: Route)
    requires Key(a) == Key(b) && ':' !in a.toolId && ':' !in b.toolId
    ensures a.toolId == b.toolId
  {
    var key := Key(a);
    assert key[|a.domain|] == ':' && key[|b.domain|] == ':';
    assert forall i :: |a.domain| < i < |key| ==> key[i] == a.toolId[i - |a.domain| - 1];
    assert forall i :: |b.domain| < i < |key| ==> key[i] == b.toolId[i - |b.domain| - 1];
    assert |a.domain| == |b.domain|;
    assert key[|a.domain| + 1..] == a.toolId && key[|b.domain| + 1..] == b.toolId;
  }

  /** So a tool loses its last route exactly when it has no upstream or every live record of it
      is blocked under its own subject. */
  lemma RoutedIffOpen(s: State, id: string)
    requires forall r :: Offered(s, r) ==> ':' !in r.toolId
    ensures (exists r :: r in ActiveRoutes(s) && r.toolId == id) <==> HasUpstream(s, id) && HasOpenRecord(s, id)
  {
    hide Offered, Offers, ActiveRoutes, HasUpstream, HasOpenRecord, First, Key;
    OffersAreOffered(s);
    OfferedIff(s, id);
    RoutedIff(s, id);
    var offers := Offers(s);
    if exists r :: Offered(s, r) && r.toolId == id {
      var r :| Offered(s, r) && r.toolId == id;
      assert r in offers;
      var n :| 0 <= n < |offers| && offers[n] == r;
      var i := FirstUnder(offers, n);
      assert offers[i] in offers;
      SameKeySameTool(offers[i], r);
    }
    if exists i :: 0 <= i < |offers| && First(offers, i) && offers[i].toolId == id {
      var i :| 0 <= i < |offers| && First(offers, i) && offers[i].toolId == id;
      assert offers[i] in offers;
    }
  }

  lemma OtherSubjectDecided(s: State, d: Decision, e: Exposure)
    requires d.subjectId != ExposureSubject(e.toolId)
    ensures OfferOfExposure(RecordDecision(s, d), e) == OfferOfExposure(s, e)
  {
    hide ExposureSubject;
    FindUpsert(s.decisions, BY_SUBJECT, d, (ExposureScope, ExposureSubject(e.toolId)));
  }

  lemma ExposureIsRouted(s: State, e: Exposure)
    requires e in s.exposures && OfferOfExposure(s, e).Some?
    ensures HasKey(ActiveRoutes(s), Key(OfferOfExposure(s, e).value))
  {
    hide ActiveRoutes, OfferOfExposure, HasKey;
    RoutesRefineRecords(s);
    assert Offered(s, OfferOfExposure(s, e).value);
  }
}
