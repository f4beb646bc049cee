/** The routing table said in terms of the stored records alone: whose record a route is, what it
    carries, and which rulings take it away. */
module RouteRules {
  import opened Wrappers
  import opened Text
  import opened Tables
  import opened RegistryState
  import opened RegistryLaws
  import opened RegistryRoutes

  // ---------- the rules ----------

  /** Some decision on the subject is a denial, a suspension or a quarantine. */
  ghost predicate RuledOut(s: State, scope: Scope, subject: string) {
    exists d :: d in s.decisions && d.scope == scope && d.subjectId == subject
      && (d.status == Denied || d.status == Suspended || d.status == Quarantined)
  }

  function KindText(k: AddressKind): string {
    match k case Website => "website" case Email => "email" case Server => "server" case Custom => "custom"
  }

  /** A public text without its scheme. */
  ghost predicate HostOf(text: string, host: string) {
    || text == "https://" + host
    || text == "http://" + host
    || (text == host && !("https://" <= text) && !("http://" <= text))
  }

  /** An active address, active exposure or verified domain of the tool that nothing rules out. */
  ghost predicate Live(s: State, toolId: string, host: string, kind: RouteKind) {
    match kind
    case WebsiteRoute =>
      exists a :: a in s.addresses && a.toolId == toolId && a.status == AddressActive && HostOf(a.publicAddress, host)
        && !RuledOut(s, ExposureScope, toolId + ":address:" + KindText(a.kind))
    case ExposureRoute =>
      exists e :: e in s.exposures && e.toolId == toolId && e.status == ExposureActive && HostOf(e.publicUrl, host)
        && !RuledOut(s, ExposureScope, toolId + ":exposure")
    case CustomDomainRoute =>
      exists d :: d in s.domains && d.toolId == toolId && d.status == DomainVerified && d.domain == host
        && !RuledOut(s, DomainScope, toolId + ":domain:" + d.domain)
  }

  /** What a route carries of its tool. */
  ghost predicate Carries(r: Route, t: Tool) {
    && r.toolId == t.id && t.upstreamUrl == Some(r.upstream) && r.upstream != ""
    && (r.requiresAuth <==> t.requiresAuth == Some(true))
    && (r.hardened <==> t.phantom.Some? && t.phantom.value.claimedSecured && t.phantom.value.compliant)
    && r.protectionLevel == (match t.phantom case None => "transitional" case Some(p) => p.level)
  }

  /** The first window over the route's domain or tool, if there is one. */
  ghost predicate Notes(r: Route, ws: seq<Window>) {
    match r.maintenance
    case None => forall w :: w in ws ==> w.subjectId != r.domain && w.subjectId != r.toolId
    case Some(w) => exists i :: (0 <= i < |ws| && ws[i] == w && (w.subjectId == r.domain || w.subjectId == r.toolId)
      && forall j :: 0 <= j < i ==> ws[j].subjectId != r.domain && ws[j].subjectId != r.toolId)
  }

  // ---------- the table follows them ----------

  lemma KeyedFind<R, K>(s: seq<R>, key: R -> K, r: R)
    requires Unique(s, key) && r in s
    ensures Find(s, key, key(r)) == Some(r)
  {
    var i :| 0 <= i < |s| && s[i] == r;
    var found := Find(s, key, key(r)).value;
    var j :| 0 <= j < |s| && s[j] == found;
    assert i == j;
  }

  lemma BlockedIsRuledOut(s: State, scope: Scope, subject: string)
    requires Unique(s.decisions, BY_SUBJECT)
    ensures Blocked(s, scope, subject) <==> RuledOut(s, scope, subject)
  {
    if RuledOut(s, scope, subject) {
      var d :| d in s.decisions && d.scope == scope && d.subjectId == subject
        && (d.status == Denied || d.status == Suspended || d.status == Quarantined);
      KeyedFind(s.decisions, BY_SUBJECT, d);
    }
  }

  lemma HostIsWithoutScheme(text: string, host: string)
    ensures HostOf(text, host) <==> host == WithoutScheme(text)
  {
    assert "https://"[4] == 's' && "http://"[4] == ':';
    assert ("http://" + host)[4] == ':';
    if "https://" <= text {
      assert text == "https://" + text[8..] && text[4] == 's';
    } else if "http://" <= text {
      assert text == "http://" + text[7..];
    }
  }

  lemma SubjectTexts(id: string, kind: AddressKind, domain: string)
    ensures AddressSubject(id, kind) == id + ":address:" + KindText(kind)
    ensures ExposureSubject(id) == id + ":exposure" && DomainSubject(id, domain) == id + ":domain:" + domain
  {
  }

  lemma RouteToCarries(s: State, domain: string, id: string, kind: RouteKind)
    requires Unique(s.tools, BY_TOOL_ID)
    ensures var o := RouteTo(s, domain, id, kind);
      && (o.Some? ==>
            (o.value.domain == domain && o.value.kind == kind && o.value.maintenance == None
             && exists t :: t in s.tools && t.id == id && Carries(o.value, t)))
      && (o.Some? <==> exists t :: t in s.tools && t.id == id && t.upstreamUrl.GetOr("") != "")
  {
    if t :| t in s.tools && t.id == id && t.upstreamUrl.GetOr("") != "" {
      KeyedFind(s.tools, BY_TOOL_ID, t);
    }
  }

  /** Whether a record offers a route, said without looking at the tool. */
  lemma OffersWhenLive(s: State)
    requires Unique(s.decisions, BY_SUBJECT)
    ensures forall a :: a in s.addresses ==> (OfferOfAddress(s, a).Some? <==>
      a.status == AddressActive && !RuledOut(s, ExposureScope, a.toolId + ":address:" + KindText(a.kind))
      && RouteTo(s, WithoutScheme(a.publicAddress), a.toolId, WebsiteRoute).Some?)
    ensures forall e :: e in s.exposures ==> (OfferOfExposure(s, e).Some? <==>
      e.status == ExposureActive && !RuledOut(s, ExposureScope, e.toolId + ":exposure")
      && RouteTo(s, WithoutScheme(e.publicUrl), e.toolId, ExposureRoute).Some?)
    ensures forall d :: d in s.domains ==> (OfferOfDomain(s, d).Some? <==>
      d.status == DomainVerified && !RuledOut(s, DomainScope, d.toolId + ":domain:" + d.domain)
      && RouteTo(s, d.domain, d.toolId, CustomDomainRoute).Some?)
  {
    hide Blocked, RuledOut, WithoutScheme, AddressSubject, ExposureSubject, DomainSubject, KindText, RouteTo;
    forall a | a in s.addresses
      ensures OfferOfAddress(s, a).Some? <==>
        a.status == AddressActive && !RuledOut(s, ExposureScope, a.toolId + ":address:" + KindText(a.kind))
        && RouteTo(s, WithoutScheme(a.publicAddress), a.toolId, WebsiteRoute).Some?
    {
      SubjectTexts(a.toolId, a.kind, "");
      BlockedIsRuledOut(s, ExposureScope, AddressSubject(a.toolId, a.kind));
    }
    forall e | e in s.exposures
      ensures OfferOfExposure(s, e).Some? <==>
        e.status == ExposureActive && !RuledOut(s, ExposureScope, e.toolId + ":exposure")
        && RouteTo(s, WithoutScheme(e.publicUrl), e.toolId, ExposureRoute).Some?
    {
      SubjectTexts(e.toolId, Website, "");
      BlockedIsRuledOut(s, ExposureScope, ExposureSubject(e.toolId));
    }
    forall d | d in s.domains
      ensures OfferOfDomain(s, d).Some? <==>
        d.status == DomainVerified && !RuledOut(s, DomainScope, d.toolId + ":domain:" + d.domain)
        && RouteTo(s, d.domain, d.toolId, CustomDomainRoute).Some?
    {
      SubjectTexts(d.toolId, Website, d.domain);
      BlockedIsRuledOut(s, DomainScope, DomainSubject(d.toolId, d.domain));
    }
  }

  lemma OfferIsLive(s: State, r: Route)
    requires Unique(s.decisions, BY_SUBJECT) && Unique(s.tools, BY_TOOL_ID) && Offered(s, r)
    ensures r.maintenance == None && Live(s, r.toolId, r.domain, r.kind) && exists t :: t in s.tools && Carries(r, t)
  {
    hide Blocked, RuledOut, WithoutScheme, AddressSubject, ExposureSubject, DomainSubject, KindText, RouteTo, HostOf,
      Carries;
    OffersWhenLive(s);
    if a :| a in s.addresses && OfferOfAddress(s, a) == Some(r) {
      HostIsWithoutScheme(a.publicAddress, r.domain);
      RouteToCarries(s, WithoutScheme(a.publicAddress), a.toolId, WebsiteRoute);
      CarriesId(s, r, a.toolId);
    } else if e :| e in s.exposures && OfferOfExposure(s, e) == Some(r) {
      HostIsWithoutScheme(e.publicUrl, r.domain);
      RouteToCarries(s, WithoutScheme(e.publicUrl), e.toolId, ExposureRoute);
      CarriesId(s, r, e.toolId);
    } else {
      var d :| d in s.domains && OfferOfDomain(s, d) == Some(r);
      RouteToCarries(s, d.domain, d.toolId, CustomDomainRoute);
      CarriesId(s, r, d.toolId);
    }
  }

  lemma CarriesId(s: State, r: Route, id: string)
    requires exists t :: t in s.tools && t.id == id && Carries(r, t)
    ensures r.toolId == id
  {
  }

  lemma {:induction false} WindowIsFirst(ws: seq<Window>, r: Route)
    ensures Notes(r.(maintenance := WindowFor(ws, r)), ws)
  {
    if ws != [] && ws[0].subjectId != r.domain && ws[0].subjectId != r.toolId {
      WindowIsFirst(ws[1..], r);
      var n := r.(maintenance := WindowFor(ws[1..], r));
      if n.maintenance.Some? {
        var i :| 0 <= i < |ws[1..]| && ws[1..][i] == n.maintenance.value
          && forall j :: 0 <= j < i ==> ws[1..][j].subjectId != r.domain && ws[1..][j].subjectId != r.toolId;
        assert ws[i + 1] == n.maintenance.value;
        forall j | 0 <= j < i + 1 ensures ws[j].subjectId != r.domain && ws[j].subjectId != r.toolId {
          if j > 0 { assert ws[j] == ws[1..][j - 1]; }
        }
      } else {
        forall w | w in ws ensures w.subjectId != r.domain && w.subjectId != r.toolId {
          if w != ws[0] { assert w in ws[1..]; }
        }
      }
    }
  }

  /** Every route is that of a live record of a registered tool, carries what the tool says, and
      notes the first window over it. */
  lemma RoutesFollowRecords(s: State, r: Route)
    requires Unique(s.decisions, BY_SUBJECT) && Unique(s.tools, BY_TOOL_ID) && r in ActiveRoutes(s)
    ensures Live(s, r.toolId, r.domain, r.kind) && Notes(r, s.maintenance)
    ensures exists t :: t in s.tools && Carries(r, t)
  {
    hide ActiveRoutes, Offered, Live, Carries, Notes, WindowFor;
    RoutesRefineRecords(s);
    var bare := r.(maintenance := None);
    OfferIsLive(s, bare);
    WindowIsFirst(s.maintenance, r);
    var t :| t in s.tools && Carries(bare, t);
    SameCarried(bare, r, t);
  }

  lemma SameCarried(a: Route, b: Route, t: Tool)
    requires Carries(a, t) && b == a.(maintenance := b.maintenance)
    ensures Carries(b, t)
  {
  }

  /** And every live record of a tool with an upstream has its host routed to the tool. */
  lemma RecordsAreRouted(s: State, t: Tool, host: string, kind: RouteKind)
    requires Unique(s.decisions, BY_SUBJECT) && Unique(s.tools, BY_TOOL_ID)
    requires t in s.tools && t.upstreamUrl.GetOr("") != "" && Live(s, t.id, host, kind)
    ensures exists r :: r in ActiveRoutes(s) && r.domain + ":" + r.toolId == host + ":" + t.id
  {
    hide ActiveRoutes, RuledOut, WithoutScheme, KindText, RouteTo, HostOf, Carries, OfferOfAddress, OfferOfExposure,
      OfferOfDomain;
    RoutesRefineRecords(s);
    RouteToCarries(s, host, t.id, kind);
    OffersWhenLive(s);
    var r := RouteTo(s, host, t.id, kind).value;
    assert r.domain == host && r.toolId == t.id by { RouteNames(s, host, t.id, kind); }
    assert Offered(s, r) by { LiveIsOffered(s, t.id, host, kind); }
    KeyHad(ActiveRoutes(s), Key(r));
  }

  lemma RouteNames(s: State, host: string, id: string, kind: RouteKind)
    requires RouteTo(s, host, id, kind).Some?
    ensures var r := RouteTo(s, host, id, kind).value; r.domain == host && r.toolId == id
  {
  }

  lemma LiveIsOffered(s: State, id: string, host: string, kind: RouteKind)
    requires Unique(s.decisions, BY_SUBJECT) && Live(s, id, host, kind) && RouteTo(s, host, id, kind).Some?
    ensures Offered(s, RouteTo(s, host, id, kind).value)
  {
    hide RuledOut, WithoutScheme, KindText, RouteTo, HostOf, Blocked;
    OffersWhenLive(s);
    match kind
    case WebsiteRoute =>
      var a :| a in s.addresses && a.toolId == id && a.status == AddressActive && HostOf(a.publicAddress, host)
        && !RuledOut(s, ExposureScope, id + ":address:" + KindText(a.kind));
      HostIsWithoutScheme(a.publicAddress, host);
      assert OfferOfAddress(s, a).Some?;
    case ExposureRoute =>
      var e :| e in s.exposures && e.toolId == id && e.status == ExposureActive && HostOf(e.publicUrl, host)
        && !RuledOut(s, ExposureScope, id + ":exposure");
      HostIsWithoutScheme(e.publicUrl, host);
      assert OfferOfExposure(s, e).Some?;
    case CustomDomainRoute =>
      var d :| d in s.domains && d.toolId == id && d.status == DomainVerified && d.domain == host
        && !RuledOut(s, DomainScope, id + ":domain:" + d.domain);
      assert OfferOfDomain(s, d).Some?;
  }

  // ---------- which record is shown under a key ----------

  function Rank(k: RouteKind): nat {
    match k case WebsiteRoute => 0 case ExposureRoute => 1 case CustomDomainRoute => 2
  }

  lemma KindsOfOffers(s: State)
    ensures forall r :: r in Collect(s.addresses, a => OfferOfAddress(s, a)) ==> r.kind == WebsiteRoute
    ensures forall r :: r in Collect(s.exposures, e => OfferOfExposure(s, e)) ==> r.kind == ExposureRoute
    ensures forall r :: r in Collect(s.domains, d => OfferOfDomain(s, d)) ==> r.kind == CustomDomainRoute
  {
    hide Blocked, WithoutScheme, AddressSubject, ExposureSubject, DomainSubject;
    CollectMembers(s.addresses, a => OfferOfAddress(s, a));
    CollectMembers(s.exposures, e => OfferOfExposure(s, e));
    CollectMembers(s.domains, d => OfferOfDomain(s, d));
  }

  lemma OffersByRank(s: State, j: nat, i: nat)
    requires j < |Offers(s)| && i < |Offers(s)| && Rank(Offers(s)[j].kind) < Rank(Offers(s)[i].kind)
    ensures j < i
  {
    hide Collect, OfferOfAddress, OfferOfExposure, OfferOfDomain;
    KindsOfOffers(s);
    var a := Collect(s.addresses, a => OfferOfAddress(s, a));
    var e := Collect(s.exposures, e => OfferOfExposure(s, e));
    var d := Collect(s.domains, d => OfferOfDomain(s, d));
    assert Offers(s) == a + e + d;
    forall k: nat | k < |Offers(s)|
      ensures Rank(Offers(s)[k].kind) == if k < |a| then 0 else if k < |a| + |e| then 1 else 2
    {
      if k < |a| { assert Offers(s)[k] == a[k]; }
      else if k < |a| + |e| { assert Offers(s)[k] == e[k - |a|]; }
      else { assert Offers(s)[k] == d[k - |a| - |e|]; }
    }
  }

  /** Where records of several kinds offer the same host to the same tool, the table shows the address,
      or else the exposure, or else the custom domain. */
  lemma AddressesComeFirst(s: State, r: Route, t: Tool, host: string, kind: RouteKind)
    requires Unique(s.decisions, BY_SUBJECT) && Unique(s.tools, BY_TOOL_ID) && r in ActiveRoutes(s)
    requires t in s.tools && t.upstreamUrl.GetOr("") != "" && Live(s, t.id, host, kind)
    requires host + ":" + t.id == r.domain + ":" + r.toolId
    ensures Rank(r.kind) <= Rank(kind)
  {
    hide Offered, Live, Carries, Notes, WindowFor, RouteTo, Offers, Merge, First, Rank, Annotated, RuledOut;
    RouteToCarries(s, host, t.id, kind);
    var q := RouteTo(s, host, t.id, kind).value;
    RouteNames(s, host, t.id, kind);
    LiveIsOffered(s, t.id, host, kind);
    OffersAreOffered(s);
    var j: nat :| j < |Offers(s)| && Offers(s)[j] == q;
    var m := AnnotatedFrom(s.maintenance, Merge([], Offers(s)), r);
    MergeKeepsFirst(Offers(s), m);
    var i: nat :| i < |Offers(s)| && First(Offers(s), i) && Offers(s)[i] == m;
    assert r.kind == m.kind && q.kind == kind && Key(q) == Key(m);
    if Rank(q.kind) < Rank(m.kind) {
      OffersByRank(s, j, i);
      EarlierHasOther(Offers(s), j, i);
    }
  }

  lemma EarlierHasOther(offers: seq<Route>, j: nat, i: nat)
    requires j < i < |offers| && First(offers, i)
    ensures Key(offers[j]) != Key(offers[i])
  {
  }

  // ---------- what a ruling does ----------

  /** An operator's ruling on a decision on record takes its subject out exactly when it is a
      denial, a suspension or a quarantine, and lets it in again when it clears it; no other
      subject and no other record changes. */
  lemma RulingDecides(s: State, scope: Scope, subject: string, x: Ruling, at: int)
    requires Consistent(s) && exists d :: d in s.decisions && d.scope == scope && d.subjectId == subject
    ensures var n := After(s, Rule(scope, subject, x), at);
      && Unique(n.decisions, BY_SUBJECT)
      && (RuledOut(n, scope, subject) <==> x == Denied || x == Suspended || x == Quarantined)
      && (forall sc, su :: (sc, su) != (scope, subject) ==> (RuledOut(n, sc, su) <==> RuledOut(s, sc, su)))
      && n == s.(decisions := n.decisions)
  {
    hide Upsert;
    var d :| d in s.decisions && d.scope == scope && d.subjectId == subject;
    KeyedFind(s.decisions, BY_SUBJECT, d);
    var ruled := d.(status := x);
    var n := After(s, Rule(scope, subject, x), at);
    assert n == s.(decisions := Upsert(s.decisions, BY_SUBJECT, ruled));
    UpsertUnique(s.decisions, BY_SUBJECT, ruled);
    UpsertMembers(s.decisions, BY_SUBJECT, ruled);
  }

  /** So the records of that subject offer no route, or offer one again. */
  lemma RulingMovesRoutes(s: State, x: Ruling, at: int)
    requires Consistent(s)
    ensures forall a :: a in s.addresses && Ruled(s, ExposureScope, AddressSubject(a.toolId, a.kind)) ==>
      var n := After(s, Rule(ExposureScope, AddressSubject(a.toolId, a.kind), x), at);
      OfferOfAddress(n, a).Some? <==> x == Cleared && a.status == AddressActive && HasUpstream(s, a.toolId)
    ensures forall e :: e in s.exposures && Ruled(s, ExposureScope, ExposureSubject(e.toolId)) ==>
      var n := After(s, Rule(ExposureScope, ExposureSubject(e.toolId), x), at);
      OfferOfExposure(n, e).Some? <==> x == Cleared && e.status == ExposureActive && HasUpstream(s, e.toolId)
    ensures forall d :: d in s.domains && Ruled(s, DomainScope, DomainSubject(d.toolId, d.domain)) ==>
      var n := After(s, Rule(DomainScope, DomainSubject(d.toolId, d.domain), x), at);
      OfferOfDomain(n, d).Some? <==> x == Cleared && d.status == DomainVerified && HasUpstream(s, d.toolId)
  {
    hide After, Consistent, WithoutScheme, AddressSubject, ExposureSubject, DomainSubject, RuledOut, Blocked;
    forall a | a in s.addresses && Ruled(s, ExposureScope, AddressSubject(a.toolId, a.kind))
      ensures OfferOfAddress(After(s, Rule(ExposureScope, AddressSubject(a.toolId, a.kind), x), at), a).Some?
        <==> x == Cleared && a.status == AddressActive && HasUpstream(s, a.toolId)
    {
      RulingBlocks(s, ExposureScope, AddressSubject(a.toolId, a.kind), x, at);
    }
    forall e | e in s.exposures && Ruled(s, ExposureScope, ExposureSubject(e.toolId))
      ensures OfferOfExposure(After(s, Rule(ExposureScope, ExposureSubject(e.toolId), x), at), e).Some?
        <==> x == Cleared && e.status == ExposureActive && HasUpstream(s, e.toolId)
    {
      RulingBlocks(s, ExposureScope, ExposureSubject(e.toolId), x, at);
    }
    forall d | d in s.domains && Ruled(s, DomainScope, DomainSubject(d.toolId, d.domain))
      ensures OfferOfDomain(After(s, Rule(DomainScope, DomainSubject(d.toolId, d.domain), x), at), d).Some?
        <==> x == Cleared && d.status == DomainVerified && HasUpstream(s, d.toolId)
    {
      RulingBlocks(s, DomainScope, DomainSubject(d.toolId, d.domain), x, at);
    }
  }

  ghost predicate Ruled(s: State, scope: Scope, subject: string) {
    exists d :: d in s.decisions && d.scope == scope && d.subjectId == subject
  }

  lemma RulingBlocks(s: State, scope: Scope, subject: string, x: Ruling, at: int)
    requires Consistent(s) && Ruled(s, scope, subject)
    ensures var n := After(s, Rule(scope, subject, x), at);
      (Blocked(n, scope, subject) <==> x != Cleared) && n.tools == s.tools
  {
    hide After, Consistent, RuledOut, Blocked;
    RulingDecides(s, scope, subject, x, at);
    BlockedIsRuledOut(After(s, Rule(scope, subject, x), at), scope, subject);
  }
}
