/** What every registry operation keeps across the tables, and what a revocation lasts. */
module RegistryLaws {
  import opened Wrappers
  import opened Tables
  import opened RegistryState

  // ---------- the invariant ----------

  ghost predicate Keyed(s: State) {
    && Unique(s.tools, BY_TOOL_ID) && Unique(s.publicUrls, BY_URL_TOOL) && Unique(s.addresses, BY_ADDRESS)
    && Unique(s.exposures, BY_EXPOSURE_TOOL) && Unique(s.domains, BY_DOMAIN) && Unique(s.decisions, BY_SUBJECT)
    && Unique(s.maintenance, BY_PART)
  }

  predicate AddressStamped(a: Address) {
    (a.status == AddressActive ==> a.activatedAt.Some?) && (a.status == AddressRevoked ==> a.revokedAt.Some?)
  }

  predicate ExposureStamped(e: Exposure) {
    (e.status == ExposureActive ==> e.activatedAt.Some?) && (e.status == ExposureRevoked ==> e.revokedAt.Some?)
  }

  predicate DomainStamped(d: Domain) {
    (d.status == DomainVerified ==> d.verifiedAt.Some?) && (d.status == DomainRevoked ==> d.revokedAt.Some?)
  }

  predicate Backs(a: Address, u: PublicUrl) {
    a.toolId == u.toolId && a.kind == Website && a.status == AddressActive && a.publicAddress == u.url
  }

  /** An active public URL is the text of an active website address of its tool. */
  ghost predicate Backed(s: State, u: PublicUrl) {
    u.status == UrlActive ==> exists a :: a in s.addresses && Backs(a, u)
  }

  ghost predicate Consistent(s: State) {
    && Keyed(s)
    && (forall a :: a in s.addresses ==> AddressStamped(a))
    && (forall e :: e in s.exposures ==> ExposureStamped(e))
    && (forall d :: d in s.domains ==> DomainStamped(d))
    && (forall u :: u in s.publicUrls ==> Backed(s, u))
  }

  function Empty(cloudDomain: string): State {
    State(cloudDomain, [], [], [], [], [], [], [])
  }

  lemma EmptyConsistent(cloudDomain: string)
    ensures Consistent(Empty(cloudDomain))
  {
  }

  /** Tools and decisions are not mentioned by the rest of the invariant. */
  ghost predicate SameResources(s: State, n: State) {
    n.addresses == s.addresses && n.publicUrls == s.publicUrls && n.exposures == s.exposures && n.domains == s.domains
  }

  lemma UpdateToolKeeps(s: State, id: string, change: Tool -> Tool)
    requires Consistent(s)
    ensures Consistent(UpdateTool(s, id, change)) && SameResources(s, UpdateTool(s, id, change))
  {
    var t := GetTool(s, id);
    if t.Some? {
      UpsertUnique(s.tools, BY_TOOL_ID, change(t.value).(id := id));
    }
  }

  lemma {:induction false} WithoutUnique(tools: seq<Tool>, id: string)
    requires Unique(tools, BY_TOOL_ID)
    ensures Unique(Without(tools, id), BY_TOOL_ID)
    ensures forall t :: t in Without(tools, id) ==> t in tools
  {
    if tools != [] && tools[0].id != id {
      WithoutUnique(tools[1..], id);
      var rest := Without(tools[1..], id);
      forall j | 0 <= j < |rest| ensures BY_TOOL_ID(rest[j]) != BY_TOOL_ID(tools[0]) {
        assert rest[j] in tools[1..];
        var n :| 0 <= n < |tools[1..]| && tools[1..][n] == rest[j];
        assert tools[n + 1] == rest[j] && BY_TOOL_ID(tools[0]) != BY_TOOL_ID(tools[n + 1]);
      }
    }
  }

  lemma RecordDecisionKeeps(s: State, d: Decision)
    requires Consistent(s)
    ensures Consistent(RecordDecision(s, d)) && SameResources(s, RecordDecision(s, d))
  {
    UpsertUnique(s.decisions, BY_SUBJECT, d);
  }

  /** A new address record leaves public URLs backed when those of its tool that could have
      rested on the record it replaces are themselves replaced. */
  lemma AddressRequestKeeps(
      s: State, tool: Tool, kind: AddressKind, subject: Option<string>, desiredHost: Option<string>,
      ruling: Ruling, at: int)
    requires Consistent(s)
    ensures Consistent(AfterAddressRequest(s, tool, kind, subject, desiredHost, ruling, at))
  {
    hide BuildPublicAddress, NormalizeSubject;
    var next := AfterAddressRequest(s, tool, kind, subject, desiredHost, ruling, at);
    var text := BuildPublicAddress(s.cloudDomain, tool.id, kind, subject, desiredHost);
    var record := CreateAddress(tool.id, kind, NormalizeSubject(subject, tool.id), text,
                                if ruling == Cleared then AddressActive else AddressRequested, at);
    UpsertUnique(s.addresses, BY_ADDRESS, record);
    UpsertMembers(s.addresses, BY_ADDRESS, record);
    var d := Decision(ExposureScope, AddressSubject(tool.id, kind), tool.id, ruling);
    UpsertUnique(s.decisions, BY_SUBJECT, d);
    var decided := RecordDecision(s, d).(addresses := Upsert(s.addresses, BY_ADDRESS, record));
    ToolsStayUnique(decided, tool.id, (t: Tool) =>
      t.(exposed := true, publicUrl := if kind == Website then Some(text) else t.publicUrl, updatedAt := at));
    assert next.addresses == Upsert(s.addresses, BY_ADDRESS, record);
    if kind == Website {
      WebsiteTablesKeep(s, next, tool, text, ruling, at);
      var url := PublicUrl(tool.id, text, if ruling == Cleared then UrlActive else UrlPending, at, at + THIRTY_DAYS);
      UpsertMembers(s.publicUrls, BY_URL_TOOL, url);
      forall u | u in next.publicUrls ensures Backed(next, u) {
        if u == url {
          if ruling == Cleared { assert Backs(record, u); }
        } else {
          StillBacked(s, next, u, record);
        }
      }
    } else {
      forall u | u in next.publicUrls ensures Backed(next, u) {
        StillBacked(s, next, u, record);
      }
    }
  }

  /** An address request touches one address key and, for a website, one tool's public URL,
      which is active exactly when the request was cleared. */
  lemma AddressRequestReplaces(
      s: State, tool: Tool, kind: AddressKind, subject: Option<string>, desiredHost: Option<string>,
      ruling: Ruling, at: int)
    requires Keyed(s)
    ensures var n := AfterAddressRequest(s, tool, kind, subject, desiredHost, ruling, at);
      && (forall a :: BY_ADDRESS(a) != (tool.id, kind, NormalizeSubject(subject, tool.id)) ==>
            (a in n.addresses <==> a in s.addresses))
      && (forall u: PublicUrl :: u.toolId != tool.id ==> (u in n.publicUrls <==> u in s.publicUrls))
      && (kind != Website ==> n.publicUrls == s.publicUrls)
      && (kind == Website ==>
            (forall u :: u in n.publicUrls && u.toolId == tool.id ==> (u.status == UrlActive <==> ruling == Cleared))
            && exists u :: u in n.publicUrls && u.toolId == tool.id)
  {
    hide BuildPublicAddress, NormalizeSubject;
    var text := BuildPublicAddress(s.cloudDomain, tool.id, kind, subject, desiredHost);
    UpsertMembers(s.addresses, BY_ADDRESS,
      CreateAddress(tool.id, kind, NormalizeSubject(subject, tool.id), text,
                    if ruling == Cleared then AddressActive else AddressRequested, at));
    var url := PublicUrl(tool.id, text, if ruling == Cleared then UrlActive else UrlPending, at, at + THIRTY_DAYS);
    UpsertMembers(s.publicUrls, BY_URL_TOOL, url);
    if kind == Website {
      assert url in AfterAddressRequest(s, tool, kind, subject, desiredHost, ruling, at).publicUrls;
    }
  }

  lemma ToolsStayUnique(s: State, id: string, change: Tool -> Tool)
    requires Unique(s.tools, BY_TOOL_ID)
    ensures Unique(UpdateTool(s, id, change).tools, BY_TOOL_ID)
  {
    if GetTool(s, id).Some? {
      UpsertUnique(s.tools, BY_TOOL_ID, change(GetTool(s, id).value).(id := id));
    }
  }

  lemma WebsiteTablesKeep(s: State, next: State, tool: Tool, text: string, ruling: Ruling, at: int)
    requires Consistent(s)
    requires var existing := Find(s.exposures, BY_EXPOSURE_TOOL, tool.id);
      next.exposures == Upsert(s.exposures, BY_EXPOSURE_TOOL, match existing
        case Some(e) => TransitionExposure(e, ExposureStatusFor(ruling), text, at)
        case None => CreateExposure(tool.id, text, ExposureStatusFor(ruling), at))
    requires next.publicUrls == Upsert(s.publicUrls, BY_URL_TOOL,
      PublicUrl(tool.id, text, if ruling == Cleared then UrlActive else UrlPending, at, at + THIRTY_DAYS))
    ensures Unique(next.exposures, BY_EXPOSURE_TOOL) && Unique(next.publicUrls, BY_URL_TOOL)
    ensures forall e :: e in next.exposures ==> ExposureStamped(e)
  {
    var exposure := match Find(s.exposures, BY_EXPOSURE_TOOL, tool.id)
      case Some(e) => TransitionExposure(e, ExposureStatusFor(ruling), text, at)
      case None => CreateExposure(tool.id, text, ExposureStatusFor(ruling), at);
    UpsertUnique(s.exposures, BY_EXPOSURE_TOOL, exposure);
    UpsertMembers(s.exposures, BY_EXPOSURE_TOOL, exposure);
    UpsertUnique(s.publicUrls, BY_URL_TOOL,
      PublicUrl(tool.id, text, if ruling == Cleared then UrlActive else UrlPending, at, at + THIRTY_DAYS));
  }

  lemma StillBacked(s: State, next: State, u: PublicUrl, record: Address)
    requires Backed(s, u) && Unique(s.addresses, BY_ADDRESS)
    requires next.addresses == Upsert(s.addresses, BY_ADDRESS, record)
    requires record.toolId != u.toolId || record.kind != Website
    ensures Backed(next, u)
  {
    UpsertMembers(s.addresses, BY_ADDRESS, record);
    if u.status == UrlActive {
      var a :| a in s.addresses && Backs(a, u);
      assert BY_ADDRESS(a) != BY_ADDRESS(record);
      assert a in next.addresses;
    }
  }

  lemma RevokedAddresses(s: seq<Address>, id: string, only: Option<AddressKind>, at: int)
    requires Unique(s, BY_ADDRESS) && forall a :: a in s ==> AddressStamped(a)
    ensures var r := RevokeAddresses(s, id, only, at);
      && Unique(r, BY_ADDRESS)
      && (forall a :: a in r ==> AddressStamped(a))
      && (forall a :: a in s && !AddressMatches(a, id, only) ==> a in r)
      && (forall a :: a in r && AddressMatches(a, id, only) ==> a.status == AddressRevoked)
  {
    var matches := (a: Address) => AddressMatches(a, id, only);
    var change := (a: Address) => RevokeAddressRecord(a, at);
    MapWhereUnique(s, BY_ADDRESS, matches, change);
    MapWhereMembers(s, matches, change);
  }

  lemma RevokedUrls(s: seq<PublicUrl>, id: string)
    requires Unique(s, BY_URL_TOOL)
    ensures var r := RevokeUrls(s, id);
      && Unique(r, BY_URL_TOOL)
      && (forall u :: u in r ==> if u.toolId == id then u.status == UrlRevoked else u in s)
  {
    var matches := (u: PublicUrl) => u.toolId == id;
    var change := (u: PublicUrl) => u.(status := UrlRevoked);
    MapWhereUnique(s, BY_URL_TOOL, matches, change);
    MapWhereMembers(s, matches, change);
  }

  lemma AddressRevocationKeeps(s: State, id: string, only: Option<AddressKind>, at: int)
    requires Consistent(s)
    ensures Consistent(AfterAddressRevocation(s, id, only, at))
  {
    if exists a :: a in s.addresses && AddressMatches(a, id, only) {
      RevokedAddresses(s.addresses, id, only, at);
      RevokedUrls(s.publicUrls, id);
      var addresses := RevokeAddresses(s.addresses, id, only, at);
      var site := exists a :: a in s.addresses && AddressMatches(a, id, only) && a.kind == Website;
      var revoked := s.(addresses := addresses,
                        publicUrls := if site then RevokeUrls(s.publicUrls, id) else s.publicUrls);
      forall u | u in revoked.publicUrls ensures Backed(revoked, u) {
        if u.status == UrlActive {
          assert u in s.publicUrls && Backed(s, u);
          var a :| a in s.addresses && Backs(a, u);
          assert !AddressMatches(a, id, only);
        }
      }
      UpdateToolKeeps(revoked, id, (t: Tool) => t.(exposed := false, publicUrl := None, updatedAt := at));
    }
  }

  lemma ExactlyRevoked(s: seq<Address>, id: string, only: Option<AddressKind>, at: int)
    ensures var r := RevokeAddresses(s, id, only, at);
      && (forall a :: a in r && AddressMatches(a, id, only) ==> a.status == AddressRevoked)
      && (forall a :: !AddressMatches(a, id, only) ==> (a in r <==> a in s))
  {
    var matches := (a: Address) => AddressMatches(a, id, only);
    var change := (a: Address) => RevokeAddressRecord(a, at);
    MapWhereMembers(s, matches, change);
    forall a | a in MapWhere(s, matches, change)
      ensures if AddressMatches(a, id, only) then a.status == AddressRevoked else a in s
    {
      var before :| before in s && a == if matches(before) then change(before) else before;
    }
  }

  lemma ExactlyRevokedUrls(s: seq<PublicUrl>, id: string)
    ensures var r := RevokeUrls(s, id);
      && (forall u :: u in r && u.toolId == id ==> u.status == UrlRevoked)
      && (forall u: PublicUrl :: u.toolId != id ==> (u in r <==> u in s))
  {
    MapWhereMembers(s, (u: PublicUrl) => u.toolId == id, (u: PublicUrl) => u.(status := UrlRevoked));
  }

  /** Revoking addresses revokes every match and nothing else, and the tool's public URL exactly
      when a website is among them. */
  lemma AddressRevocationRevokes(s: State, id: string, only: Option<AddressKind>, at: int)
    ensures var n := AfterAddressRevocation(s, id, only, at);
      && (forall a :: a in n.addresses && AddressMatches(a, id, only) ==> a.status == AddressRevoked)
      && (forall a :: !AddressMatches(a, id, only) ==> (a in n.addresses <==> a in s.addresses))
      && (forall u: PublicUrl :: u.toolId != id ==> (u in n.publicUrls <==> u in s.publicUrls))
      && (if exists a :: a in s.addresses && AddressMatches(a, id, only) && a.kind == Website
          then forall u :: u in n.publicUrls && u.toolId == id ==> u.status == UrlRevoked
          else n.publicUrls == s.publicUrls)
  {
    hide AddressMatches, RevokeAddresses, RevokeUrls, UpdateTool;
    ExactlyRevoked(s.addresses, id, only, at);
    ExactlyRevokedUrls(s.publicUrls, id);
    if exists a :: a in s.addresses && AddressMatches(a, id, only) {
      var site := exists a :: a in s.addresses && AddressMatches(a, id, only) && a.kind == Website;
      var revoked := s.(addresses := RevokeAddresses(s.addresses, id, only, at),
                        publicUrls := if site then RevokeUrls(s.publicUrls, id) else s.publicUrls);
      SameResourcesAfter(revoked, id, (t: Tool) => t.(exposed := false, publicUrl := None, updatedAt := at));
    }
  }

  lemma SameResourcesAfter(s: State, id: string, change: Tool -> Tool)
    ensures SameResources(s, UpdateTool(s, id, change))
  {
  }

  lemma ExposureRequestKeeps(s: State, tool: Tool, desiredHost: Option<string>, ruling: Ruling, at: int)
    requires Consistent(s)
    ensures Consistent(AfterExposureRequest(s, tool, desiredHost, ruling, at))
  {
    hide WebAddress;
    var url := WebAddress(desiredHost, tool.id + "." + s.cloudDomain);
    var record := TransitionExposure(CreateExposure(tool.id, url, ExposureRequested, at),
                                     ExposureStatusFor(ruling), url, at);
    UpsertUnique(s.exposures, BY_EXPOSURE_TOOL, record);
    UpsertMembers(s.exposures, BY_EXPOSURE_TOOL, record);
    var d := Decision(ExposureScope, ExposureSubject(tool.id), tool.id, ruling);
    RecordDecisionKeeps(s, d);
    var requested := RecordDecision(s, d).(exposures := Upsert(s.exposures, BY_EXPOSURE_TOOL, record));
    assert Consistent(requested) by {
      forall u | u in requested.publicUrls ensures Backed(requested, u) { assert Backed(s, u); }
    }
    UpdateToolKeeps(requested, tool.id, (t: Tool) => t.(exposed := true, publicUrl := Some(url), updatedAt := at));
  }

  function RevokeDomains(s: seq<Domain>, id: string, at: int): seq<Domain> {
    MapWhere(s, (d: Domain) => d.toolId == id, (d: Domain) => RevokeDomainRecord(d, at))
  }

  function RevokeExposures(s: seq<Exposure>, id: string, at: int): seq<Exposure> {
    MapWhere(s, (e: Exposure) => e.toolId == id, (e: Exposure) => RevokeExposureRecord(e, at))
  }

  lemma RevokedDomains(s: seq<Domain>, id: string, at: int)
    requires Unique(s, BY_DOMAIN) && forall d :: d in s ==> DomainStamped(d)
    ensures var r := RevokeDomains(s, id, at);
      && Unique(r, BY_DOMAIN) && (forall d :: d in r ==> DomainStamped(d))
      && (forall d :: d in r && d.toolId == id ==> d.status == DomainRevoked)
  {
    var matches := (d: Domain) => d.toolId == id;
    var change := (d: Domain) => RevokeDomainRecord(d, at);
    MapWhereUnique(s, BY_DOMAIN, matches, change);
    MapWhereMembers(s, matches, change);
  }

  lemma RevokedExposures(s: seq<Exposure>, id: string, at: int)
    requires Unique(s, BY_EXPOSURE_TOOL) && forall e :: e in s ==> ExposureStamped(e)
    ensures var r := RevokeExposures(s, id, at);
      && Unique(r, BY_EXPOSURE_TOOL) && (forall e :: e in r ==> ExposureStamped(e))
      && (forall e :: e in r && e.toolId == id ==> e.status == ExposureRevoked)
  {
    var matches := (e: Exposure) => e.toolId == id;
    var change := (e: Exposure) => RevokeExposureRecord(e, at);
    MapWhereUnique(s, BY_EXPOSURE_TOOL, matches, change);
    MapWhereMembers(s, matches, change);
  }

  /** The tables of a revoked tool: every address, exposure and domain of it is revoked. */
  ghost predicate Unbacked(s: State, id: string) {
    && (forall a :: a in s.addresses && a.toolId == id ==> a.status != AddressActive)
    && (forall e :: e in s.exposures && e.toolId == id ==> e.status != ExposureActive)
    && (forall d :: d in s.domains && d.toolId == id ==> d.status != DomainVerified)
  }

  lemma ExposureRevocationKeeps(s: State, id: string, at: int)
    requires Consistent(s)
    ensures Consistent(AfterExposureRevocation(s, id, at))
    ensures Find(s.exposures, BY_EXPOSURE_TOOL, id).Some? ==> Unbacked(AfterExposureRevocation(s, id, at), id)
  {
    if Find(s.exposures, BY_EXPOSURE_TOOL, id).Some? {
      var revoked := s.(exposures := RevokeExposures(s.exposures, id, at),
                        publicUrls := RevokeUrls(s.publicUrls, id),
                        addresses := RevokeAddresses(s.addresses, id, None, at),
                        domains := RevokeDomains(s.domains, id, at));
      RevokedExposures(s.exposures, id, at);
      RevokedUrls(s.publicUrls, id);
      RevokedAddresses(s.addresses, id, None, at);
      RevokedDomains(s.domains, id, at);
      forall u | u in revoked.publicUrls ensures Backed(revoked, u) {
        if u.status == UrlActive {
          assert u in s.publicUrls && Backed(s, u);
          var a :| a in s.addresses && Backs(a, u);
          assert !AddressMatches(a, id, None);
        }
      }
      UpdateToolKeeps(revoked, id, (t: Tool) => t.(exposed := false, updatedAt := at));
      assert AfterExposureRevocation(s, id, at) ==
        UpdateTool(revoked, id, (t: Tool) => t.(exposed := false, updatedAt := at));
    }
  }

  lemma DomainUpsertKeeps(s: State, d: Domain)
    requires Consistent(s) && DomainStamped(d)
    ensures Consistent(s.(domains := Upsert(s.domains, BY_DOMAIN, d)))
  {
    UpsertUnique(s.domains, BY_DOMAIN, d);
    UpsertMembers(s.domains, BY_DOMAIN, d);
    var next := s.(domains := Upsert(s.domains, BY_DOMAIN, d));
    forall u | u in next.publicUrls ensures Backed(next, u) { assert Backed(s, u); }
  }

  /** Keys stay unique, states keep their timestamps, and active public URLs keep the address
      they stand for, whatever the operation. */
  lemma OperationKeeps(s: State, op: Op, at: int)
    requires Consistent(s)
    ensures Consistent(After(s, op, at))
  {
    hide Consistent, EvaluateGuardianRequest, AfterAddressRequest, AfterExposureRequest, AfterAddressRevocation,
      AfterExposureRevocation, AfterDomainRequest, BuildTool, BeatTool, PatchTool, UpdateTool;
    match op
    case Register(input) => RegisterKeeps(s, BuildTool(input, GetTool(s, input.id), at));
    case Heartbeat(id, upstream, health, phantom) =>
      UpdateToolKeeps(s, id, (t: Tool) => BeatTool(t, upstream, health, phantom, at));
    case Expire(id) =>
      UpdateToolKeeps(s, id, (t: Tool) => t.(health := Offline, registration := Expired, updatedAt := at));
    case PatchMetadata(id, patch) => UpdateToolKeeps(s, id, (t: Tool) => PatchTool(t, patch, at));
    case Deregister(id) => DeregisterKeeps(s, id);
    case SetEnabled(id, enabled) => UpdateToolKeeps(s, id, (t: Tool) => t.(exposed := enabled, updatedAt := at));
    case RequestAddress(id, kind, subject, host, facts) =>
      if GetTool(s, id).Some? {
        var tool := GetTool(s, id).value;
        AddressRequestKeeps(s, tool, kind, subject, host, EvaluateGuardianRequest(Some(tool), host, facts), at);
      }
    case RevokeAddress(id, only) => AddressRevocationKeeps(s, id, only, at);
    case RequestExposure(id, host, facts) =>
      if GetTool(s, id).Some? {
        var tool := GetTool(s, id).value;
        ExposureRequestKeeps(s, tool, host, EvaluateGuardianRequest(Some(tool), host, facts), at);
      }
    case RevokeExposure(id) => ExposureRevocationKeeps(s, id, at);
    case RequestDomain(id, domain, token, facts) => DomainRequestKeeps(s, id, domain, token, facts, at);
    case VerifyDomain(domain, token) => DomainChangeKeeps(s, op, domain, at);
    case RevokeDomain(domain) => DomainChangeKeeps(s, op, domain, at);
    case Rule(scope, subject, status) =>
      var d := Find(s.decisions, BY_SUBJECT, (scope, subject));
      if d.Some? { RecordDecisionKeeps(s, d.value.(status := status)); }
    case StartMaintenance(w) => StartMaintenanceKeeps(s, w, at);
    case ClearMaintenance(subject) => ClearMaintenanceKeeps(s, subject, at);
  }

  lemma RegisterKeeps(s: State, tool: Tool)
    requires Consistent(s)
    ensures Consistent(s.(tools := Upsert(s.tools, BY_TOOL_ID, tool)))
  {
    UpsertUnique(s.tools, BY_TOOL_ID, tool);
    var next := s.(tools := Upsert(s.tools, BY_TOOL_ID, tool));
    forall u | u in next.publicUrls ensures Backed(next, u) { assert Backed(s, u); }
  }

  lemma DeregisterKeeps(s: State, id: string)
    requires Consistent(s)
    ensures Consistent(s.(tools := Without(s.tools, id)))
  {
    WithoutUnique(s.tools, id);
    var next := s.(tools := Without(s.tools, id));
    forall u | u in next.publicUrls ensures Backed(next, u) { assert Backed(s, u); }
  }

  lemma MaintenanceKeeps(s: State, next: State)
    requires Consistent(s) && next == s.(maintenance := next.maintenance) && Unique(next.maintenance, BY_PART)
    ensures Consistent(next)
  {
    forall u | u in next.publicUrls ensures Backed(next, u) { assert Backed(s, u); }
  }

  lemma StartMaintenanceKeeps(s: State, w: Window, at: int)
    requires Consistent(s)
    ensures Consistent(After(s, StartMaintenance(w), at))
  {
    hide Backed;
    var existing := Find(s.maintenance, BY_PART, w.subjectId);
    UpsertUnique(s.maintenance, BY_PART, if existing.Some? then w.(startedAt := existing.value.startedAt) else w);
    MaintenanceKeeps(s, After(s, StartMaintenance(w), at));
  }

  lemma ClearMaintenanceKeeps(s: State, subjectId: string, at: int)
    requires Consistent(s)
    ensures Consistent(After(s, ClearMaintenance(subjectId), at))
  {
    hide Backed;
    WithoutWindowUnique(s.maintenance, subjectId);
    MaintenanceKeeps(s, After(s, ClearMaintenance(subjectId), at));
  }

  lemma {:induction false} WithoutWindowUnique(ws: seq<Window>, subjectId: string)
    requires Unique(ws, BY_PART)
    ensures Unique(WithoutWindow(ws, subjectId), BY_PART)
    ensures forall w :: w in WithoutWindow(ws, subjectId) ==> w in ws
  {
    if ws != [] && ws[0].subjectId != subjectId {
      WithoutWindowUnique(ws[1..], subjectId);
      var rest := WithoutWindow(ws[1..], subjectId);
      forall j | 0 <= j < |rest| ensures BY_PART(rest[j]) != BY_PART(ws[0]) {
        assert rest[j] in ws[1..];
        var n :| 0 <= n < |ws[1..]| && ws[1..][n] == rest[j];
        assert ws[n + 1] == rest[j] && BY_PART(ws[0]) != BY_PART(ws[n + 1]);
      }
    }
  }

  lemma DomainRequestKeeps(s: State, id: string, domain: string, token: string, facts: HostFacts, at: int)
    requires Consistent(s)
    ensures Consistent(AfterDomainRequest(s, id, domain, token, facts, at))
  {
    hide EvaluateGuardianRequest;
    var next := AfterDomainRequest(s, id, domain, token, facts, at);
    var url := Find(s.publicUrls, BY_URL_TOOL, id);
    if url.Some? && url.value.status == UrlActive {
      var ruling := EvaluateGuardianRequest(GetTool(s, id), Some(domain), facts);
      var d := Decision(DomainScope, DomainSubject(id, domain), id, ruling);
      RecordDecisionKeeps(s, d);
      var status := match ruling
        case Cleared => (match Find(s.domains, BY_DOMAIN, domain) case Some(d) => d.status case None => DomainPending)
        case Quarantined => DomainQuarantined
        case _ => DomainDenied;
      DomainUpsertKeeps(RecordDecision(s, d), CreateDomain(domain, id, url.value.url, token, status, at));
    }
  }

  lemma DomainChangeKeeps(s: State, op: Op, domain: string, at: int)
    requires Consistent(s) && (op == RevokeDomain(domain) || (op.VerifyDomain? && op.domain == domain))
    ensures Consistent(After(s, op, at))
  {
    var found := Find(s.domains, BY_DOMAIN, domain);
    if found.Some? {
      var changed := if op.VerifyDomain? then VerifyDomainRecord(found.value, op.token, at)
                     else Some(RevokeDomainRecord(found.value, at));
      if changed.Some? { DomainUpsertKeeps(s, changed.value); }
    }
  }

  // ---------- runs ----------

  function Run(s: State, ops: seq<(Op, int)>): State {
    if ops == [] then s else After(Run(s, ops[..|ops| - 1]), ops[|ops| - 1].0, ops[|ops| - 1].1)
  }

  lemma {:induction false} RunConsistent(s: State, ops: seq<(Op, int)>)
    requires Consistent(s)
    ensures Consistent(Run(s, ops))
    decreases |ops|
  {
    hide Consistent, After;
    if ops != [] {
      RunConsistent(s, ops[..|ops| - 1]);
      OperationKeeps(Run(s, ops[..|ops| - 1]), ops[|ops| - 1].0, ops[|ops| - 1].1);
    }
  }

  /** What a restart puts together: decisions and windows as the platform state brings them back,
      from one time, and all other tables as the JSON store does, from another. */
  function Rejoined(tables: State, platform: State): State {
    tables.(decisions := platform.decisions, maintenance := platform.maintenance)
  }

  /** Whatever two points of a run they come from, the state is consistent. */
  lemma RestartIsConsistent(s: State, ops: seq<(Op, int)>, j: nat, k: nat)
    requires Consistent(s) && j <= |ops| && k <= |ops|
    ensures Consistent(Rejoined(Run(s, ops[..j]), Run(s, ops[..k])))
  {
    hide Run;
    RunConsistent(s, ops[..j]);
    RunConsistent(s, ops[..k]);
    var tables := Run(s, ops[..j]);
    var n := Rejoined(tables, Run(s, ops[..k]));
    forall u | u in n.publicUrls ensures Backed(n, u) {
      assert Backed(tables, u);
    }
  }

  // ---------- how long a revocation lasts ----------

  /** The operations that can give a tool something to be routed by. */
  predicate Grants(s: State, op: Op, id: string) {
    match op
    case RequestAddress(t, _, _, _, _) => t == id
    case RequestExposure(t, _, _) => t == id
    case RequestDomain(t, _, _, _) => t == id
    case VerifyDomain(domain, _) =>
      var d := Find(s.domains, BY_DOMAIN, domain);
      d.Some? && d.value.toolId == id
    case _ => false
  }

  lemma UnbackedElsewhere(s: State, n: State, id: string)
    requires Unbacked(s, id)
    requires forall a :: a in n.addresses && a.toolId == id && a.status == AddressActive ==> a in s.addresses
    requires forall e :: e in n.exposures && e.toolId == id && e.status == ExposureActive ==> e in s.exposures
    requires forall d :: d in n.domains && d.toolId == id && d.status == DomainVerified ==> d in s.domains
    ensures Unbacked(n, id)
  {
  }

  lemma UnbackedKept(s: State, op: Op, at: int, id: string)
    requires Consistent(s) && Unbacked(s, id) && !Grants(s, op, id)
    ensures Unbacked(After(s, op, at), id)
  {
    hide Consistent, Unbacked, EvaluateGuardianRequest, AfterAddressRequest, AfterExposureRequest,
      AfterAddressRevocation, AfterExposureRevocation, AfterDomainRequest, BuildTool, BeatTool, PatchTool, UpdateTool,
      VerifyDomainRecord, RevokeDomainRecord;
    match op
    case Heartbeat(t, upstream, health, phantom) =>
      ToolChangeKeepsUnbacked(s, t, (t: Tool) => BeatTool(t, upstream, health, phantom, at), id);
    case Expire(t) =>
      ToolChangeKeepsUnbacked(s, t, (t: Tool) => t.(health := Offline, registration := Expired, updatedAt := at), id);
    case PatchMetadata(t, patch) => ToolChangeKeepsUnbacked(s, t, (t: Tool) => PatchTool(t, patch, at), id);
    case SetEnabled(t, enabled) =>
      ToolChangeKeepsUnbacked(s, t, (t: Tool) => t.(exposed := enabled, updatedAt := at), id);
    case RequestAddress(t, _, _, _, _) => if GetTool(s, t).Some? { OtherAddressGranted(s, op, at, id); }
    case RevokeAddress(t, only) => AddressRevocationKeepsUnbacked(s, t, only, at, id);
    case RequestExposure(t, host, facts) =>
      if GetTool(s, t).Some? {
        OtherExposureGranted(s, GetTool(s, t).value, host, EvaluateGuardianRequest(GetTool(s, t), host, facts), at, id);
      }
    case RevokeExposure(t) => RevocationKeepsUnbacked(s, t, at, id);
    case RequestDomain(t, domain, token, facts) => OtherDomainGranted(s, t, domain, token, facts, at, id);
    case VerifyDomain(domain, token) =>
      var d := Find(s.domains, BY_DOMAIN, domain);
      if d.Some? && VerifyDomainRecord(d.value, token, at).Some? {
        VerifiedElsewhere(d.value, token, at);
        DomainUpsertKeepsUnbacked(s, VerifyDomainRecord(d.value, token, at).value, id);
      }
    case RevokeDomain(domain) =>
      var d := Find(s.domains, BY_DOMAIN, domain);
      if d.Some? {
        RevokedDomainRecord(d.value, at);
        DomainUpsertKeepsUnbacked(s, RevokeDomainRecord(d.value, at), id);
      }
    case _ => SameResourcesUnbacked(s, After(s, op, at), id);
  }

  lemma SameResourcesUnbacked(s: State, n: State, id: string)
    requires Unbacked(s, id) && SameResources(s, n)
    ensures Unbacked(n, id)
  {
  }

  lemma ToolChangeKeepsUnbacked(s: State, tool: string, change: Tool -> Tool, id: string)
    requires Unbacked(s, id)
    ensures Unbacked(UpdateTool(s, tool, change), id)
  {
  }

  lemma VerifiedElsewhere(d: Domain, token: string, at: int)
    requires VerifyDomainRecord(d, token, at).Some?
    ensures VerifyDomainRecord(d, token, at).value.toolId == d.toolId
  {
  }

  lemma RevokedDomainRecord(d: Domain, at: int)
    ensures RevokeDomainRecord(d, at).status == DomainRevoked
  {
  }

  lemma DomainUpsertKeepsUnbacked(s: State, d: Domain, id: string)
    requires Consistent(s) && Unbacked(s, id) && (d.toolId != id || d.status != DomainVerified)
    ensures Unbacked(s.(domains := Upsert(s.domains, BY_DOMAIN, d)), id)
  {
    UpsertMembers(s.domains, BY_DOMAIN, d);
  }

  lemma AddressRevocationKeepsUnbacked(s: State, tool: string, only: Option<AddressKind>, at: int, id: string)
    requires Unbacked(s, id)
    ensures Unbacked(AfterAddressRevocation(s, tool, only, at), id)
  {
    MapWhereMembers(s.addresses, (a: Address) => AddressMatches(a, tool, only),
                    (a: Address) => RevokeAddressRecord(a, at));
  }

  lemma OtherExposureGranted(s: State, tool: Tool, host: Option<string>, ruling: Ruling, at: int, id: string)
    requires Consistent(s) && Unbacked(s, id) && tool.id != id
    ensures Unbacked(AfterExposureRequest(s, tool, host, ruling, at), id)
  {
    hide WebAddress, ExposureStatusFor;
    var url := WebAddress(host, tool.id + "." + s.cloudDomain);
    UpsertMembers(s.exposures, BY_EXPOSURE_TOOL,
      TransitionExposure(CreateExposure(tool.id, url, ExposureRequested, at), ExposureStatusFor(ruling), url, at));
  }

  lemma OtherAddressGranted(s: State, op: Op, at: int, id: string)
    requires Consistent(s) && Unbacked(s, id) && op.RequestAddress? && op.id != id && GetTool(s, op.id).Some?
    ensures Unbacked(After(s, op, at), id)
  {
    hide EvaluateGuardianRequest, BuildPublicAddress, NormalizeSubject, Unbacked;
    var n := After(s, op, at);
    var tool := GetTool(s, op.id).value;
    var ruling := EvaluateGuardianRequest(Some(tool), op.desiredHost, op.facts);
    var text := BuildPublicAddress(s.cloudDomain, tool.id, op.kind, op.subject, op.desiredHost);
    var record := CreateAddress(tool.id, op.kind, NormalizeSubject(op.subject, tool.id), text,
                                if ruling == Cleared then AddressActive else AddressRequested, at);
    UpsertMembers(s.addresses, BY_ADDRESS, record);
    var exposure := match Find(s.exposures, BY_EXPOSURE_TOOL, tool.id)
      case Some(e) => TransitionExposure(e, ExposureStatusFor(ruling), text, at)
      case None => CreateExposure(tool.id, text, ExposureStatusFor(ruling), at);
    UpsertMembers(s.exposures, BY_EXPOSURE_TOOL, exposure);
    assert n.addresses == Upsert(s.addresses, BY_ADDRESS, record);
    assert n.exposures == s.exposures || n.exposures == Upsert(s.exposures, BY_EXPOSURE_TOOL, exposure);
    UnbackedElsewhere(s, n, id);
  }

  lemma OtherDomainGranted(
      s: State, tool: string, domain: string, token: string, facts: HostFacts, at: int, id: string)
    requires Consistent(s) && Unbacked(s, id) && tool != id
    ensures Unbacked(AfterDomainRequest(s, tool, domain, token, facts, at), id)
  {
    hide EvaluateGuardianRequest;
    var n := AfterDomainRequest(s, tool, domain, token, facts, at);
    var url := Find(s.publicUrls, BY_URL_TOOL, tool);
    if url.Some? && url.value.status == UrlActive {
      var ruling := EvaluateGuardianRequest(GetTool(s, tool), Some(domain), facts);
      var status := match ruling
        case Cleared => (match Find(s.domains, BY_DOMAIN, domain) case Some(d) => d.status case None => DomainPending)
        case Quarantined => DomainQuarantined
        case _ => DomainDenied;
      DomainUpsertKeepsUnbacked(s, CreateDomain(domain, tool, url.value.url, token, status, at), id);
    }
  }

  lemma RevocationKeepsUnbacked(s: State, t: string, at: int, id: string)
    requires Unbacked(s, id)
    ensures Unbacked(AfterExposureRevocation(s, t, at), id)
  {
    MapWhereMembers(s.exposures, (e: Exposure) => e.toolId == t, (e: Exposure) => RevokeExposureRecord(e, at));
    MapWhereMembers(s.addresses, (a: Address) => AddressMatches(a, t, None),
                    (a: Address) => RevokeAddressRecord(a, at));
    MapWhereMembers(s.domains, (d: Domain) => d.toolId == t, (d: Domain) => RevokeDomainRecord(d, at));
  }

  /** No operation of a run can give the tool a route. */
  ghost predicate NeverGranted(s: State, ops: seq<(Op, int)>, id: string) {
    forall n :: 0 <= n < |ops| ==> !Grants(Run(s, ops[..n]), ops[n].0, id)
  }

  lemma {:induction false} UnbackedLasts(s: State, ops: seq<(Op, int)>, id: string)
    requires Consistent(s) && Unbacked(s, id) && NeverGranted(s, ops, id)
    ensures Unbacked(Run(s, ops), id)
    decreases |ops|
  {
    hide Consistent, After, Unbacked, Grants;
    if ops != [] {
      var before := ops[..|ops| - 1];
      forall n | 0 <= n < |before| ensures !Grants(Run(s, before[..n]), before[n].0, id) {
        assert before[..n] == ops[..n];
      }
      UnbackedLasts(s, before, id);
      RunConsistent(s, before);
      assert ops[..|ops| - 1] == before;
      UnbackedKept(Run(s, before), ops[|ops| - 1].0, ops[|ops| - 1].1, id);
    }
  }
}
