/** The registry as the process holds it: tables assigned and rewritten in place. Every method
    keeps the registry consistent and leaves the state that `After` describes; the routing
    table built by the loops is `ActiveRoutes`. */
module ToolRegistry {
  import opened Wrappers
  import opened Text
  import opened Tables
  import opened RegistryState
  import opened RegistryLaws
  import opened RegistryRoutes

  /** Where keys are unique, replacing the record found is replacing every record that matches. */
  lemma {:induction false} UpsertFound<R, K>(s: seq<R>, key: R -> K, k: K, matches: R -> bool, change: R -> R)
    requires Unique(s, key) && (forall r :: key(change(r)) == key(r)) && (forall r :: matches(r) <==> key(r) == k)
    requires Find(s, key, k).Some?
    ensures Upsert(s, key, change(Find(s, key, k).value)) == MapWhere(s, matches, change)
  {
    assert s == [s[0]] + s[1..];
    if key(s[0]) == k {
      assert forall i :: 0 < i < |s| ==> !matches(s[i]);
    } else {
      UpsertFound(s[1..], key, k, matches, change);
      assert MapWhere(s, matches, change) == [s[0]] + MapWhere(s[1..], matches, change);
    }
  }

  lemma {:induction false} NoneMatch<R, K>(s: seq<R>, key: R -> K, k: K, matches: R -> bool, change: R -> R)
    requires (forall r :: matches(r) <==> key(r) == k) && Find(s, key, k).None?
    ensures MapWhere(s, matches, change) == s
  {
    forall i | 0 <= i < |s| ensures !matches(s[i]) {
      assert s[i] in s;
    }
  }

  lemma {:induction false} WithoutAt(tools: seq<Tool>, id: string, i: nat)
    requires i < |tools| && tools[i].id == id && forall j :: 0 <= j < i ==> tools[j].id != id
    ensures Without(tools, id) == tools[..i] + tools[i + 1..]
  {
    if i > 0 {
      WithoutAt(tools[1..], id, i - 1);
    }
  }

  lemma {:induction false} WithoutNothing(tools: seq<Tool>, id: string)
    requires forall j :: 0 <= j < |tools| ==> tools[j].id != id
    ensures Without(tools, id) == tools
  {
    if tools != [] {
      WithoutNothing(tools[1..], id);
    }
  }

  lemma {:induction false} WithoutWindowAt(ws: seq<Window>, subjectId: string, i: nat)
    requires i < |ws| && ws[i].subjectId == subjectId && forall j :: 0 <= j < i ==> ws[j].subjectId != subjectId
    ensures WithoutWindow(ws, subjectId) == ws[..i] + ws[i + 1..]
  {
    if i > 0 {
      WithoutWindowAt(ws[1..], subjectId, i - 1);
    }
  }

  lemma {:induction false} WithoutNoWindow(ws: seq<Window>, subjectId: string)
    requires forall j :: 0 <= j < |ws| ==> ws[j].subjectId != subjectId
    ensures WithoutWindow(ws, subjectId) == ws
  {
    if ws != [] {
      WithoutNoWindow(ws[1..], subjectId);
    }
  }

  lemma KeysUnique(s: State)
    requires Consistent(s)
    ensures Keyed(s)
  {
  }

  // ---------- what the larger operations amount to ----------

  lemma DomainRequestIs(s: State, op: Op, at: int)
    requires Consistent(s) && op.RequestDomain?
    ensures After(s, op, at) == AfterDomainRequest(s, op.id, op.domain, op.token, op.facts, at)
    ensures Consistent(After(s, op, at))
  {
    hide Consistent, AfterDomainRequest;
    OperationKeeps(s, op, at);
  }

  lemma AddressRequestIs(s: State, op: Op, at: int)
    requires Consistent(s) && op.RequestAddress?
    ensures var tool := GetTool(s, op.id);
      After(s, op, at) ==
      if tool.None? then s
      else AfterAddressRequest(s, tool.value, op.kind, op.subject, op.desiredHost,
                               EvaluateGuardianRequest(tool, op.desiredHost, op.facts), at)
    ensures Consistent(After(s, op, at))
  {
    hide Consistent, AfterAddressRequest, EvaluateGuardianRequest;
    OperationKeeps(s, op, at);
  }

  lemma AddressRevocationIs(s: State, op: Op, at: int)
    requires Consistent(s) && op.RevokeAddress?
    ensures After(s, op, at) == AfterAddressRevocation(s, op.id, op.only, at)
    ensures Consistent(After(s, op, at))
  {
    hide Consistent, AfterAddressRevocation;
    OperationKeeps(s, op, at);
  }

  lemma ExposureRevocationIs(s: State, op: Op, at: int)
    requires Consistent(s) && op.RevokeExposure?
    ensures After(s, op, at) == AfterExposureRevocation(s, op.id, at)
    ensures Consistent(After(s, op, at))
  {
    hide Consistent, AfterExposureRevocation;
    OperationKeeps(s, op, at);
  }

  // ---------- building the routing table ----------

  function Added(routes: seq<Route>, offer: Option<Route>): seq<Route> {
    if offer.None? || HasKey(routes, Key(offer.value)) then routes else routes + [offer.value]
  }

  ghost predicate Seen(routes: seq<Route>, seen: set<string>) {
    forall key :: key in seen <==> HasKey(routes, key)
  }

  lemma NothingSeen()
    ensures Seen([], {}) && Merge([], []) == []
  {
  }

  lemma NothingAdded(routes: seq<Route>)
    ensures Added(routes, None) == routes
  {
  }

  lemma SeenAlso(routes: seq<Route>, seen: set<string>, r: Route)
    requires Seen(routes, seen)
    ensures Seen(routes + [r], seen + {Key(r)})
  {
    var m := routes + [r];
    assert m[|routes|] == r;
    forall key ensures key in seen + {Key(r)} <==> HasKey(m, key) {
      if HasKey(routes, key) {
        var i :| 0 <= i < |routes| && Key(routes[i]) == key;
        assert Key(m[i]) == key;
      }
    }
  }

  /** One more record adds its offer to the merged table. */
  lemma OfferNext<R>(before: seq<Route>, records: seq<R>, i: nat, offer: R -> Option<Route>)
    requires i < |records|
    ensures Merge([], before + Collect(records[..i + 1], offer)) ==
      Added(Merge([], before + Collect(records[..i], offer)), offer(records[i]))
  {
    assert records[..i + 1][..i] == records[..i];
    var offers := before + Collect(records[..i], offer);
    if offer(records[i]).Some? {
      var next := offers + [offer(records[i]).value];
      assert next == before + Collect(records[..i + 1], offer);
      assert next[..|next| - 1] == offers;
    } else {
      assert offers == before + Collect(records[..i + 1], offer);
    }
  }

  lemma OffersAre(
      s: State, ofAddress: Address -> Option<Route>, ofExposure: Exposure -> Option<Route>,
      ofDomain: Domain -> Option<Route>)
    requires (forall a :: ofAddress(a) == OfferOfAddress(s, a)) && (forall e :: ofExposure(e) == OfferOfExposure(s, e))
    requires forall d :: ofDomain(d) == OfferOfDomain(s, d)
    ensures Offers(s) ==
      Collect(s.addresses, ofAddress) + Collect(s.exposures, ofExposure) + Collect(s.domains, ofDomain)
  {
    hide OfferOfAddress, OfferOfExposure, OfferOfDomain;
    CollectSame(s.addresses, ofAddress, a => OfferOfAddress(s, a));
    CollectSame(s.exposures, ofExposure, e => OfferOfExposure(s, e));
    CollectSame(s.domains, ofDomain, d => OfferOfDomain(s, d));
  }

  lemma MergedUnannotated(s: State)
    ensures forall r :: r in Merge([], Offers(s)) ==> r.maintenance == None
  {
    hide Offers, Merge, Offered;
    OffersAreOffered(s);
    MergeMembers([], Offers(s));
    forall r | r in Merge([], Offers(s)) ensures r.maintenance == None {
      OfferUnannotated(s, r);
    }
  }

  function RevocationsOf(addresses: seq<Address>, id: string, only: Option<AddressKind>, at: int): seq<Address> {
    if addresses == [] then []
    else
      var a := addresses[|addresses| - 1];
      RevocationsOf(addresses[..|addresses| - 1], id, only, at)
      + if AddressMatches(a, id, only) then [RevokeAddressRecord(a, at)] else []
  }

  lemma {:induction false} RevokedMembers(addresses: seq<Address>, id: string, only: Option<AddressKind>, at: int)
    ensures RevocationsOf(addresses, id, only, at) != [] <==>
      exists a :: a in addresses && AddressMatches(a, id, only)
    decreases |addresses|
  {
    hide AddressMatches;
    if addresses != [] {
      RevokedMembers(addresses[..|addresses| - 1], id, only, at);
      assert addresses == addresses[..|addresses| - 1] + [addresses[|addresses| - 1]];
    }
  }

  class ToolRegistry {
    const cloudDomain: string
    var tools: seq<Tool>
    var publicUrls: seq<PublicUrl>
    var addresses: seq<Address>
    var exposures: seq<Exposure>
    var domains: seq<Domain>
    var decisions: seq<Decision>
    var maintenance: seq<Window>

    function View(): State
      reads this
    {
      State(cloudDomain, tools, publicUrls, addresses, exposures, domains, decisions, maintenance)
    }

    ghost predicate Valid()
      reads this
    {
      Consistent(View())
    }

    constructor (cloudDomain: string)
      ensures Valid() && View() == Empty(cloudDomain)
    {
      this.cloudDomain := cloudDomain;
      tools, publicUrls, addresses, exposures := [], [], [], [];
      domains, decisions, maintenance := [], [], [];
    }

    method UpdateToolRecord(id: string, change: Tool -> Tool) returns (updated: Option<Tool>)
      modifies this`tools
      ensures View() == UpdateTool(old(View()), id, change) && updated == GetTool(View(), id)
      ensures updated.Some? <==> GetTool(old(View()), id).Some?
    {
      var current := Find(tools, BY_TOOL_ID, id);
      if current.None? {
        return None;
      }
      var next := change(current.value).(id := id);
      tools := UpsertRecord(tools, BY_TOOL_ID, next);
      return Some(next);
    }

    method RegisterTool(input: Registering, at: int) returns (tool: Tool)
      requires Valid()
      modifies this`tools
      ensures Valid() && View() == After(old(View()), Register(input), at)
      ensures GetTool(View(), input.id) == Some(tool)
    {
      hide Consistent;
      OperationKeeps(View(), Register(input), at);
      var previous := Find(tools, BY_TOOL_ID, input.id);
      tool := BuildTool(input, previous, at);
      tools := UpsertRecord(tools, BY_TOOL_ID, tool);
    }

    method RecordHeartbeat(
        id: string, upstreamUrl: Option<string>, health: Option<Health>, phantom: Option<Phantom>, at: int)
      returns (tool: Option<Tool>)
      requires Valid()
      modifies this`tools
      ensures Valid() && View() == After(old(View()), Heartbeat(id, upstreamUrl, health, phantom), at)
      ensures tool == GetTool(View(), id)
    {
      hide Consistent, BeatTool, UpdateTool;
      OperationKeeps(View(), Heartbeat(id, upstreamUrl, health, phantom), at);
      tool := UpdateToolRecord(id, (t: Tool) => BeatTool(t, upstreamUrl, health, phantom, at));
    }

    method ExpireHeartbeat(id: string, at: int) returns (tool: Option<Tool>)
      requires Valid()
      modifies this`tools
      ensures Valid() && View() == After(old(View()), Expire(id), at)
      ensures tool == GetTool(View(), id)
    {
      hide Consistent, UpdateTool;
      OperationKeeps(View(), Expire(id), at);
      tool := UpdateToolRecord(id, (t: Tool) => t.(health := Offline, registration := Expired, updatedAt := at));
    }

    method PatchToolMetadata(id: string, patch: Patch, at: int) returns (tool: Option<Tool>)
      requires Valid()
      modifies this`tools
      ensures Valid() && View() == After(old(View()), PatchMetadata(id, patch), at)
      ensures tool == GetTool(View(), id)
    {
      hide Consistent, PatchTool, UpdateTool;
      OperationKeeps(View(), PatchMetadata(id, patch), at);
      tool := UpdateToolRecord(id, (t: Tool) => PatchTool(t, patch, at));
    }

    method DeregisterTool(id: string, at: int) returns (removed: Option<Tool>)
      requires Valid()
      modifies this`tools
      ensures Valid() && View() == After(old(View()), Deregister(id), at)
      ensures removed == GetTool(old(View()), id)
    {
      hide Consistent;
      OperationKeeps(View(), Deregister(id), at);
      removed := Find(tools, BY_TOOL_ID, id);
      var i := FindIndex(tools, BY_TOOL_ID, id);
      if i >= 0 {
        WithoutAt(tools, id, i);
        tools := tools[..i] + tools[i + 1..];
      } else {
        WithoutNothing(tools, id);
      }
    }

    method EnableTool(id: string, enabled: bool, at: int) returns (tool: Option<Tool>)
      requires Valid()
      modifies this`tools
      ensures Valid() && View() == After(old(View()), SetEnabled(id, enabled), at)
      ensures tool == GetTool(View(), id)
    {
      hide Consistent, UpdateTool;
      OperationKeeps(View(), SetEnabled(id, enabled), at);
      tool := UpdateToolRecord(id, (t: Tool) => t.(exposed := enabled, updatedAt := at));
    }

    method RequestSystemsApiAddress(
        id: string, kind: AddressKind, subject: Option<string>, desiredHost: Option<string>, facts: HostFacts, at: int)
      returns (issued: Option<Address>)
      requires Valid()
      modifies this
      ensures Valid() && View() == After(old(View()), RequestAddress(id, kind, subject, desiredHost, facts), at)
      ensures issued.Some? <==> GetTool(old(View()), id).Some?
      ensures issued.Some? ==> Find(addresses, BY_ADDRESS, (id, kind, NormalizeSubject(subject, id))) == issued
    {
      hide After, Consistent, EvaluateGuardianRequest, BuildPublicAddress, NormalizeSubject, UpdateTool, AddressSubject;
      AddressRequestIs(View(), RequestAddress(id, kind, subject, desiredHost, facts), at);
      var found := Find(tools, BY_TOOL_ID, id);
      if found.None? {
        return None;
      }
      var tool := found.value;
      var ruling := EvaluateGuardianRequest(found, desiredHost, facts);
      decisions := UpsertRecord(decisions, BY_SUBJECT, Decision(ExposureScope, AddressSubject(id, kind), id, ruling));
      var text := BuildPublicAddress(cloudDomain, id, kind, subject, desiredHost);
      var status := if ruling == Cleared then AddressActive else AddressRequested;
      var record := CreateAddress(id, kind, NormalizeSubject(subject, id), text, status, at);
      addresses := UpsertRecord(addresses, BY_ADDRESS, record);
      if ruling == Cleared {
        var _ := UpdateToolRecord(id, (t: Tool) =>
          t.(exposed := true, publicUrl := if kind == Website then Some(text) else t.publicUrl, updatedAt := at));
      }
      assert View() == After(old(View()), RequestAddress(id, kind, subject, desiredHost, facts), at)
        .(publicUrls := publicUrls, exposures := exposures);
      if kind == Website {
        IssuePublicUrl(tool.id, text, ruling, at);
      }
      return Some(record);
    }

    /** The website half of an address request: the public URL and the tool's exposure. */
    method IssuePublicUrl(id: string, text: string, ruling: Ruling, at: int)
      modifies this`publicUrls, this`exposures
      ensures publicUrls == Upsert(old(publicUrls), BY_URL_TOOL,
                PublicUrl(id, text, if ruling == Cleared then UrlActive else UrlPending, at, at + THIRTY_DAYS))
      ensures exposures == Upsert(old(exposures), BY_EXPOSURE_TOOL,
                match Find(old(exposures), BY_EXPOSURE_TOOL, id)
                case Some(e) => TransitionExposure(e, ExposureStatusFor(ruling), text, at)
                case None => CreateExposure(id, text, ExposureStatusFor(ruling), at))
    {
      var status := if ruling == Cleared then UrlActive else UrlPending;
      publicUrls := UpsertRecord(publicUrls, BY_URL_TOOL, PublicUrl(id, text, status, at, at + THIRTY_DAYS));
      var existing := Find(exposures, BY_EXPOSURE_TOOL, id);
      var exposure := match existing
        case Some(e) => TransitionExposure(e, ExposureStatusFor(ruling), text, at)
        case None => CreateExposure(id, text, ExposureStatusFor(ruling), at);
      exposures := UpsertRecord(exposures, BY_EXPOSURE_TOOL, exposure);
    }

    method RevokePublicUrlRecord(id: string)
      requires Unique(publicUrls, BY_URL_TOOL)
      modifies this`publicUrls
      ensures publicUrls == RevokeUrls(old(publicUrls), id)
    {
      var matches := (u: PublicUrl) => u.toolId == id;
      var change := (u: PublicUrl) => u.(status := UrlRevoked);
      var found := Find(publicUrls, BY_URL_TOOL, id);
      if found.Some? {
        UpsertFound(publicUrls, BY_URL_TOOL, id, matches, change);
        publicUrls := UpsertRecord(publicUrls, BY_URL_TOOL, change(found.value));
      } else {
        NoneMatch(publicUrls, BY_URL_TOOL, id, matches, change);
      }
    }

    method HasAddress(wanted: Address -> bool) returns (some: bool)
      ensures some <==> exists a :: a in addresses && wanted(a)
    {
      for i := 0 to |addresses|
        invariant forall j :: 0 <= j < i ==> !wanted(addresses[j])
      {
        if wanted(addresses[i]) {
          return true;
        }
      }
      return false;
    }

    /** The records of a revocation, in the order of the table. */
    method RevokedRecords(id: string, only: Option<AddressKind>, at: int) returns (revoked: seq<Address>)
      ensures revoked == RevocationsOf(addresses, id, only, at)
    {
      revoked := [];
      for i := 0 to |addresses|
        invariant revoked == RevocationsOf(addresses[..i], id, only, at)
      {
        assert addresses[..i + 1][..i] == addresses[..i];
        if AddressMatches(addresses[i], id, only) {
          revoked := revoked + [RevokeAddressRecord(addresses[i], at)];
        }
      }
      assert addresses[..|addresses|] == addresses;
    }

    method RevokeSystemsApiAddress(id: string, only: Option<AddressKind>, at: int) returns (revoked: seq<Address>)
      requires Valid()
      modifies this
      ensures Valid() && View() == After(old(View()), RevokeAddress(id, only), at)
      ensures revoked == RevocationsOf(old(addresses), id, only, at)
      ensures revoked != [] <==> exists a :: a in old(addresses) && AddressMatches(a, id, only)
    {
      hide After, Consistent, UpdateTool, AddressMatches, RevocationsOf;
      AddressRevocationIs(View(), RevokeAddress(id, only), at);
      KeysUnique(View());
      RevokedMembers(addresses, id, only, at);
      revoked := RevokedRecords(id, only, at);
      if revoked == [] {
        return;
      }
      var site := HasAddress((a: Address) => AddressMatches(a, id, only) && a.kind == Website);
      addresses := UpsertEach(addresses, BY_ADDRESS, (a: Address) => AddressMatches(a, id, only),
                              (a: Address) => RevokeAddressRecord(a, at));
      if site {
        RevokePublicUrlRecord(id);
      }
      RetireIfUnaddressed(id, at);
    }

    /** A tool with no active address left is no longer exposed. */
    method RetireIfUnaddressed(id: string, at: int)
      modifies this`tools
      ensures View() == if exists a :: a in old(addresses) && a.toolId == id && a.status == AddressActive
        then old(View())
        else UpdateTool(old(View()), id, (t: Tool) => t.(exposed := false, publicUrl := None, updatedAt := at))
    {
      hide UpdateTool;
      var active := HasAddress((a: Address) => a.toolId == id && a.status == AddressActive);
      if !active {
        var _ := UpdateToolRecord(id, (t: Tool) => t.(exposed := false, publicUrl := None, updatedAt := at));
      }
    }

    method RequestToolExposure(id: string, desiredHost: Option<string>, facts: HostFacts, at: int)
      returns (record: Option<Exposure>)
      requires Valid()
      modifies this
      ensures Valid() && View() == After(old(View()), RequestExposure(id, desiredHost, facts), at)
      ensures record.Some? <==> GetTool(old(View()), id).Some?
      ensures record.Some? ==> Find(exposures, BY_EXPOSURE_TOOL, id) == record
    {
      hide Consistent, EvaluateGuardianRequest, WebAddress, UpdateTool, ExposureSubject;
      OperationKeeps(View(), RequestExposure(id, desiredHost, facts), at);
      var tool := Find(tools, BY_TOOL_ID, id);
      if tool.None? {
        return None;
      }
      var ruling := EvaluateGuardianRequest(tool, desiredHost, facts);
      decisions := UpsertRecord(decisions, BY_SUBJECT, Decision(ExposureScope, ExposureSubject(id), id, ruling));
      var url := WebAddress(desiredHost, id + "." + cloudDomain);
      var requested := CreateExposure(id, url, ExposureRequested, at);
      var next := TransitionExposure(requested, ExposureStatusFor(ruling), url, at);
      exposures := UpsertRecord(exposures, BY_EXPOSURE_TOOL, next);
      if ruling == Cleared {
        var _ := UpdateToolRecord(id, (t: Tool) => t.(exposed := true, publicUrl := Some(url), updatedAt := at));
      }
      return Some(next);
    }

    method RevokeSystemsApiExposure(id: string, at: int) returns (revoked: Option<Exposure>)
      requires Valid()
      modifies this
      ensures Valid() && View() == After(old(View()), RevokeExposure(id), at)
      ensures revoked.Some? <==> Find(old(exposures), BY_EXPOSURE_TOOL, id).Some?
      ensures revoked.Some? ==> Unbacked(View(), id) && Find(exposures, BY_EXPOSURE_TOOL, id) == revoked
    {
      hide After, Consistent, UpdateTool, Unbacked;
      ExposureRevocationIs(View(), RevokeExposure(id), at);
      ExposureRevocationKeeps(View(), id, at);
      var found := Find(exposures, BY_EXPOSURE_TOOL, id);
      if found.None? {
        return None;
      }
      KeysUnique(View());
      revoked := Some(RevokeExposureRecord(found.value, at));
      RevokeExposureOf(id, found.value, at);
      RevokePublicUrlRecord(id);
      addresses := UpsertEach(addresses, BY_ADDRESS, (a: Address) => AddressMatches(a, id, None),
                              (a: Address) => RevokeAddressRecord(a, at));
      domains := UpsertEach(domains, BY_DOMAIN, (d: Domain) => d.toolId == id,
                            (d: Domain) => RevokeDomainRecord(d, at));
      var _ := UpdateToolRecord(id, (t: Tool) => t.(exposed := false, updatedAt := at));
    }

    method RevokeExposureOf(id: string, found: Exposure, at: int)
      requires Unique(exposures, BY_EXPOSURE_TOOL) && Find(exposures, BY_EXPOSURE_TOOL, id) == Some(found)
      modifies this`exposures
      ensures exposures == RevokeExposures(old(exposures), id, at)
      ensures Find(exposures, BY_EXPOSURE_TOOL, id) == Some(RevokeExposureRecord(found, at))
    {
      UpsertFound(exposures, BY_EXPOSURE_TOOL, id, (e: Exposure) => e.toolId == id,
                  (e: Exposure) => RevokeExposureRecord(e, at));
      exposures := UpsertRecord(exposures, BY_EXPOSURE_TOOL, RevokeExposureRecord(found, at));
    }

    method RequestDomainBinding(id: string, domain: string, token: string, facts: HostFacts, at: int)
      returns (binding: Option<Domain>)
      requires Valid()
      modifies this
      ensures Valid() && View() == After(old(View()), RequestDomain(id, domain, token, facts), at)
      ensures binding.Some? <==>
        exists u :: Find(old(publicUrls), BY_URL_TOOL, id) == Some(u) && u.status == UrlActive
      ensures binding.Some? ==> Find(domains, BY_DOMAIN, domain) == binding
    {
      hide After, Consistent, EvaluateGuardianRequest, DomainSubject;
      DomainRequestIs(View(), RequestDomain(id, domain, token, facts), at);
      var url := Find(publicUrls, BY_URL_TOOL, id);
      if url.None? || url.value.status != UrlActive {
        return None;
      }
      var tool := Find(tools, BY_TOOL_ID, id);
      var ruling := EvaluateGuardianRequest(tool, Some(domain), facts);
      decisions := UpsertRecord(decisions, BY_SUBJECT, Decision(DomainScope, DomainSubject(id, domain), id, ruling));
      var existing := Find(domains, BY_DOMAIN, domain);
      var status := DomainDenied;
      if ruling == Cleared {
        status := if existing.Some? then existing.value.status else DomainPending;
      } else if ruling == Quarantined {
        status := DomainQuarantined;
      }
      var next := CreateDomain(domain, id, url.value.url, token, status, at);
      domains := UpsertRecord(domains, BY_DOMAIN, next);
      return Some(next);
    }

    method VerifyDomainBinding(domain: string, token: string, at: int) returns (verified: Option<Domain>)
      requires Valid()
      modifies this`domains
      ensures Valid() && View() == After(old(View()), VerifyDomain(domain, token), at)
      ensures verified.Some? <==>
        exists d :: Find(old(domains), BY_DOMAIN, domain) == Some(d) && d.token == token
      ensures verified.Some? ==> Find(domains, BY_DOMAIN, domain) == verified
    {
      hide Consistent;
      OperationKeeps(View(), VerifyDomain(domain, token), at);
      var existing := Find(domains, BY_DOMAIN, domain);
      if existing.None? {
        return None;
      }
      verified := VerifyDomainRecord(existing.value, token, at);
      if verified.Some? {
        domains := UpsertRecord(domains, BY_DOMAIN, verified.value);
      }
    }

    method RevokeDomainBinding(domain: string, at: int) returns (revoked: Option<Domain>)
      requires Valid()
      modifies this`domains
      ensures Valid() && View() == After(old(View()), RevokeDomain(domain), at)
      ensures revoked.Some? <==> Find(old(domains), BY_DOMAIN, domain).Some?
      ensures revoked == Find(domains, BY_DOMAIN, domain)
    {
      hide Consistent;
      OperationKeeps(View(), RevokeDomain(domain), at);
      var existing := Find(domains, BY_DOMAIN, domain);
      if existing.None? {
        return None;
      }
      revoked := Some(RevokeDomainRecord(existing.value, at));
      domains := UpsertRecord(domains, BY_DOMAIN, revoked.value);
    }

    /** An operator's ruling over a decision the guardian has on record. */
    method RuleOnDecision(scope: Scope, subjectId: string, status: Ruling, at: int) returns (ruled: Option<Decision>)
      requires Valid()
      modifies this`decisions
      ensures Valid() && View() == After(old(View()), Rule(scope, subjectId, status), at)
      ensures ruled.Some? <==> Find(old(decisions), BY_SUBJECT, (scope, subjectId)).Some?
      ensures ruled == Find(decisions, BY_SUBJECT, (scope, subjectId))
    {
      hide Consistent;
      OperationKeeps(View(), Rule(scope, subjectId, status), at);
      var existing := Find(decisions, BY_SUBJECT, (scope, subjectId));
      if existing.None? {
        return None;
      }
      ruled := Some(existing.value.(status := status));
      decisions := UpsertRecord(decisions, BY_SUBJECT, ruled.value);
    }

    /** Puts a part into maintenance; a window that is revised keeps its start. */
    method SetMaintenance(window: Window, at: int) returns (record: Window)
      requires Valid()
      modifies this`maintenance
      ensures Valid() && View() == After(old(View()), StartMaintenance(window), at)
      ensures Find(maintenance, BY_PART, window.subjectId) == Some(record)
    {
      hide Consistent;
      OperationKeeps(View(), StartMaintenance(window), at);
      var existing := Find(maintenance, BY_PART, window.subjectId);
      record := if existing.Some? then window.(startedAt := existing.value.startedAt) else window;
      maintenance := UpsertRecord(maintenance, BY_PART, record);
    }

    method EndMaintenance(subjectId: string, at: int) returns (removed: bool)
      requires Valid()
      modifies this`maintenance
      ensures Valid() && View() == After(old(View()), ClearMaintenance(subjectId), at)
      ensures |maintenance| == |old(maintenance)| - if removed then 1 else 0
    {
      hide Consistent, WithoutWindow, AfterAddressRequest, AfterAddressRevocation,
        AfterExposureRequest, AfterExposureRevocation, AfterDomainRequest, UpdateTool;
      ClearMaintenanceKeeps(View(), subjectId, at);
      var kept: seq<Window>;
      kept, removed := DropWindow(maintenance, subjectId);
      maintenance := kept;
    }

    method DropWindow(ws: seq<Window>, subjectId: string) returns (kept: seq<Window>, removed: bool)
      ensures kept == WithoutWindow(ws, subjectId) && |kept| == |ws| - if removed then 1 else 0
    {
      var i := FindIndex(ws, BY_PART, subjectId);
      removed := i >= 0;
      if removed {
        WithoutWindowAt(ws, subjectId, i);
        kept := ws[..i] + ws[i + 1..];
      } else {
        WithoutNoWindow(ws, subjectId);
        kept := ws;
      }
    }

    /** Pushes a route for a record that passed the guardian, if its tool has an upstream and
        its key is new. */
    method Push(routes: seq<Route>, seen: set<string>, domain: string, toolId: string, kind: RouteKind)
      returns (more: seq<Route>, nowSeen: set<string>)
      requires Seen(routes, seen)
      ensures more == Added(routes, RouteTo(View(), domain, toolId, kind)) && Seen(more, nowSeen)
    {
      hide DistinctKeys;
      more, nowSeen := routes, seen;
      var tool := Find(tools, BY_TOOL_ID, toolId);
      if tool.None? || tool.value.upstreamUrl.GetOr("") == "" {
        return;
      }
      var key := domain + ":" + toolId;
      if key in seen {
        return;
      }
      nowSeen := seen + {key};
      var phantom := tool.value.phantom;
      var route := Route(domain, tool.value.upstreamUrl.value, toolId, kind,
                         phantom.Some? && phantom.value.claimedSecured && phantom.value.compliant,
                         if phantom.Some? then phantom.value.level else "transitional",
                         tool.value.requiresAuth == Some(true), None);
      assert Key(route) == key;
      SeenAlso(routes, seen, route);
      more := routes + [route];
    }

    /** Builds the routing table: three passes that push a route when its key is new, then
        the maintenance notes. */
    method ListActiveRoutes() returns (routes: seq<Route>)
      ensures routes == ActiveRoutes(View())
    {
      hide RouteTo, WithoutScheme, AddressSubject, ExposureSubject, DomainSubject, Blocked, Added, Seen, Merge,
        Annotated;
      ghost var s := View();
      ghost var ofAddress := (a: Address) => OfferOfAddress(s, a);
      ghost var ofExposure := (e: Exposure) => OfferOfExposure(s, e);
      ghost var ofDomain := (d: Domain) => OfferOfDomain(s, d);
      var seen: set<string> := {};
      routes := [];
      NothingSeen();
      assert Collect(addresses[..0], ofAddress) == [];
      for i := 0 to |addresses|
        invariant Seen(routes, seen) && routes == Merge([], Collect(addresses[..i], ofAddress))
      {
        var a := addresses[i];
        OfferNext([], addresses, i, ofAddress);
        assert [] + Collect(addresses[..i + 1], ofAddress) == Collect(addresses[..i + 1], ofAddress);
        assert [] + Collect(addresses[..i], ofAddress) == Collect(addresses[..i], ofAddress);
        if a.status == AddressActive && !Blocked(View(), ExposureScope, AddressSubject(a.toolId, a.kind)) {
          routes, seen := Push(routes, seen, WithoutScheme(a.publicAddress), a.toolId, WebsiteRoute);
        } else {
          NothingAdded(routes);
        }
      }
      assert addresses[..|addresses|] == addresses;
      ghost var first := Collect(addresses, ofAddress);
      assert first + Collect(exposures[..0], ofExposure) == first;
      for i := 0 to |exposures|
        invariant Seen(routes, seen) && routes == Merge([], first + Collect(exposures[..i], ofExposure))
      {
        var e := exposures[i];
        OfferNext(first, exposures, i, ofExposure);
        if e.status == ExposureActive && !Blocked(View(), ExposureScope, ExposureSubject(e.toolId)) {
          routes, seen := Push(routes, seen, WithoutScheme(e.publicUrl), e.toolId, ExposureRoute);
        } else {
          NothingAdded(routes);
        }
      }
      assert exposures[..|exposures|] == exposures;
      ghost var second := first + Collect(exposures, ofExposure);
      assert second + Collect(domains[..0], ofDomain) == second;
      for i := 0 to |domains|
        invariant Seen(routes, seen) && routes == Merge([], second + Collect(domains[..i], ofDomain))
      {
        var d := domains[i];
        OfferNext(second, domains, i, ofDomain);
        if d.status == DomainVerified && !Blocked(View(), DomainScope, DomainSubject(d.toolId, d.domain)) {
          routes, seen := Push(routes, seen, d.domain, d.toolId, CustomDomainRoute);
        } else {
          NothingAdded(routes);
        }
      }
      assert domains[..|domains|] == domains;
      OffersAre(s, ofAddress, ofExposure, ofDomain);
      MergedUnannotated(s);
      routes := Annotate(routes);
    }

    method Annotate(routes: seq<Route>) returns (noted: seq<Route>)
      requires forall r :: r in routes ==> r.maintenance == None
      ensures noted == Annotated(maintenance, routes)
    {
      if |maintenance| == 0 {
        assert forall i :: 0 <= i < |routes| ==> routes[i].(maintenance := None) == routes[i];
        return routes;
      }
      noted := [];
      for i := 0 to |routes|
        invariant |noted| == i
        invariant forall j :: 0 <= j < i ==> noted[j] == routes[j].(maintenance := WindowFor(maintenance, routes[j]))
      {
        noted := noted + [routes[i].(maintenance := WindowFor(maintenance, routes[i]))];
      }
    }
  }
}
