/** What each registry operation does, record by record: the new record written out in full, the
    place it takes, and everything that stays. */
module RegistryEffects {
  import opened Wrappers
  import opened Text
  import opened Tables
  import opened RegistryState
  import opened RegistryLaws
  import opened RouteRules
  import ToolRegistry

  // ---------- texts ----------

  /** The trimmed text, or the fallback if nothing is left of it, in lower case. */
  ghost predicate IsName(subject: Option<string>, fallback: string, name: string) {
    exists t :: IsTrimmed(subject.GetOr(""), t) && IsLower(if t == "" then fallback else t, name)
  }

  /** The trimmed host, or the default if nothing is left of it, with a scheme in front unless it
      has one. */
  ghost predicate IsWebText(host: Option<string>, default_: string, text: string) {
    exists t :: IsTrimmed(host.GetOr(""), t)
      && var h := if t == "" then default_ else t;
         text == if "http://" <= h || "https://" <= h then h else "https://" + h
  }

  ghost predicate IsPublicText(s: State, kind: AddressKind, host: Option<string>, name: string, text: string) {
    match kind
    case Website => IsWebText(host, name + "." + s.cloudDomain, text)
    case Email => text == name + "@" + s.cloudDomain
    case Server => text == "nexus://" + name
    case Custom => text == "nexus://" + name
  }

  lemma NameIs(subject: Option<string>, fallback: string)
    ensures IsName(subject, fallback, NormalizeSubject(subject, fallback))
  {
    hide Trim, Lower, IsTrimmed, IsLower;
    var t := Trim(subject.GetOr(""));
    TrimIs(subject.GetOr(""));
    LowerIs(if t == "" then fallback else t);
  }

  lemma WebTextIs(host: Option<string>, default_: string)
    ensures IsWebText(host, default_, WebAddress(host, default_))
  {
    hide Trim, IsTrimmed;
    TrimIs(host.GetOr(""));
  }

  lemma PublicTextIs(s: State, id: string, kind: AddressKind, subject: Option<string>, host: Option<string>)
    ensures IsPublicText(s, kind, host, NormalizeSubject(subject, id),
                         BuildPublicAddress(s.cloudDomain, id, kind, subject, host))
  {
    hide NormalizeSubject, WebAddress, IsWebText;
    WebTextIs(host, NormalizeSubject(subject, id) + "." + s.cloudDomain);
  }

  // ---------- the tool's own record ----------

  /** A value that is named is taken, one that is not stays as it was. */
  ghost predicate Takes<T>(named: Option<T>, was: T, now: T) {
    (named.Some? ==> now == named.value) && (named.None? ==> now == was)
  }

  ghost predicate TakesIfAny<T>(named: Option<T>, was: Option<T>, now: Option<T>) {
    (named.Some? ==> now == named) && (named.None? ==> now == was)
  }

  /** Only the tools differ, and of them only the one under this id, which is now `t`. */
  ghost predicate ToolIs(s: State, n: State, t: Tool) {
    n == s.(tools := n.tools) && Stores(s.tools, n.tools, BY_TOOL_ID, t)
  }

  lemma ToolUpdated(s: State, id: string, change: Tool -> Tool)
    requires Unique(s.tools, BY_TOOL_ID)
    ensures GetTool(s, id).None? ==> UpdateTool(s, id, change) == s
    ensures GetTool(s, id).Some? ==> ToolIs(s, UpdateTool(s, id, change), change(GetTool(s, id).value).(id := id))
  {
    if GetTool(s, id).Some? { UpsertStores(s.tools, BY_TOOL_ID, change(GetTool(s, id).value).(id := id)); }
  }

  /** A first registration takes what it is given; a later one keeps what it is not given, and in
      any case how the tool is registered, its heartbeats and its flag. */
  lemma RegistrationDoes(s: State, input: Registering, at: int) returns (u: Tool)
    requires Consistent(s)
    ensures ToolIs(s, After(s, Register(input), at), u)
    ensures u.id == input.id && u.name == input.name && u.updatedAt == at
    ensures GetTool(s, input.id).None? ==>
      && Takes(input.exposed, false, u.exposed) && Takes(input.health, Healthy, u.health)
      && u.registration == Registered && u.heartbeats == 0 && u.requiresAuth == None
      && u.phantom == input.phantom && u.publicUrl == input.publicUrl && u.upstreamUrl == input.upstreamUrl
    ensures GetTool(s, input.id).Some? ==> var t := GetTool(s, input.id).value;
      && Takes(input.exposed, t.exposed, u.exposed) && Takes(input.health, t.health, u.health)
      && u.registration == t.registration && u.heartbeats == t.heartbeats && u.requiresAuth == t.requiresAuth
      && TakesIfAny(input.phantom, t.phantom, u.phantom) && TakesIfAny(input.publicUrl, t.publicUrl, u.publicUrl)
      && TakesIfAny(input.upstreamUrl, t.upstreamUrl, u.upstreamUrl)
  {
    hide Find, Upsert, Stores;
    u := BuildTool(input, GetTool(s, input.id), at);
    UpsertStores(s.tools, BY_TOOL_ID, u);
  }

  /** A heartbeat makes the tool live, counts, and brings an offline tool back to health unless it
      names another health; what it does not name stays. */
  lemma HeartbeatDoes(s: State, op: Op, t: Tool, at: int) returns (u: Tool)
    requires Consistent(s) && op.Heartbeat? && GetTool(s, op.id) == Some(t)
    ensures ToolIs(s, After(s, op, at), u)
    ensures u == t.(health := u.health, registration := Live, heartbeats := t.heartbeats + 1,
                    upstreamUrl := u.upstreamUrl, phantom := u.phantom, updatedAt := at)
    ensures Takes(op.health, if t.health == Offline then Healthy else t.health, u.health)
    ensures TakesIfAny(op.upstreamUrl, t.upstreamUrl, u.upstreamUrl) && TakesIfAny(op.phantom, t.phantom, u.phantom)
  {
    hide Find, Upsert, Stores;
    u := BeatTool(t, op.upstreamUrl, op.health, op.phantom, at);
    ToolUpdated(s, op.id, (x: Tool) => BeatTool(x, op.upstreamUrl, op.health, op.phantom, at));
  }

  /** A patch sets what it names, whether the proxy asks for authentication included, and nothing
      else. */
  lemma PatchDoes(s: State, op: Op, t: Tool, at: int) returns (u: Tool)
    requires Consistent(s) && op.PatchMetadata? && GetTool(s, op.id) == Some(t)
    ensures ToolIs(s, After(s, op, at), u)
    ensures u == t.(name := u.name, exposed := u.exposed, health := u.health, phantom := u.phantom,
                    upstreamUrl := u.upstreamUrl, requiresAuth := u.requiresAuth, updatedAt := at)
    ensures Takes(op.patch.name, t.name, u.name) && Takes(op.patch.exposed, t.exposed, u.exposed)
    ensures Takes(op.patch.health, t.health, u.health) && TakesIfAny(op.patch.phantom, t.phantom, u.phantom)
    ensures TakesIfAny(op.patch.upstreamUrl, t.upstreamUrl, u.upstreamUrl)
    ensures TakesIfAny(op.patch.requiresAuth, t.requiresAuth, u.requiresAuth)
  {
    hide Find, Upsert, Stores;
    u := PatchTool(t, op.patch, at);
    ToolUpdated(s, op.id, (x: Tool) => PatchTool(x, op.patch, at));
  }

  /** Expiry takes a tool offline, enabling sets whether it is exposed, and nothing else. */
  lemma SwitchesDo(s: State, op: Op, t: Tool, at: int)
    requires Consistent(s) && (op.Expire? || op.SetEnabled?) && GetTool(s, op.id) == Some(t)
    ensures ToolIs(s, After(s, op, at),
      if op.Expire? then t.(health := Offline, registration := Expired, updatedAt := at)
      else t.(exposed := op.enabled, updatedAt := at))
  {
    hide Find, Upsert, Stores;
    if op.Expire? {
      ToolUpdated(s, op.id, (x: Tool) => x.(health := Offline, registration := Expired, updatedAt := at));
    } else {
      ToolUpdated(s, op.id, (x: Tool) => x.(exposed := op.enabled, updatedAt := at));
    }
  }

  /** Without the tool, a change of it, its removal and a request for it do nothing. */
  lemma MissingToolStays(s: State, op: Op, at: int)
    requires Consistent(s)
    requires op.Heartbeat? || op.Expire? || op.PatchMetadata? || op.SetEnabled? || op.RequestAddress?
          || op.RequestExposure? || op.Deregister?
    requires forall t :: t in s.tools ==> t.id != op.id
    ensures After(s, op, at) == s
  {
    if op.Deregister? { NothingWithout(s.tools, op.id); }
  }

  lemma {:induction false} NothingWithout(tools: seq<Tool>, id: string)
    requires forall t :: t in tools ==> t.id != id
    ensures Without(tools, id) == tools
  {
    if tools != [] {
      assert tools[0] in tools;
      NothingWithout(tools[1..], id);
    }
  }

  lemma {:induction false} WithoutOne(tools: seq<Tool>, id: string)
    requires Unique(tools, BY_TOOL_ID)
    ensures forall t :: t in Without(tools, id) <==> t in tools && t.id != id
  {
    if tools != [] {
      forall t | t in tools[1..] && tools[0].id == id ensures t.id != id {
        var i :| 0 <= i < |tools[1..]| && tools[1..][i] == t;
        assert BY_TOOL_ID(tools[0]) != BY_TOOL_ID(tools[i + 1]);
      }
      assert forall t :: t in tools <==> t == tools[0] || t in tools[1..];
      if tools[0].id != id { WithoutOne(tools[1..], id); }
    }
  }

  /** Deregistering takes out the tool alone and leaves its addresses, exposures and domains. */
  lemma DeregistrationDoes(s: State, id: string, at: int)
    requires Consistent(s)
    ensures var n := After(s, Deregister(id), at);
      && n == s.(tools := n.tools) && (forall t :: t in n.tools <==> t in s.tools && t.id != id)
  {
    hide Without;
    WithoutOne(s.tools, id);
  }

  // ---------- requests ----------

  /** What a grant writes into the tool, and only a grant. */
  ghost predicate Exposed(s: State, n: State, t: Tool, cleared: bool, publicUrl: Option<string>, at: int) {
    if cleared then Stores(s.tools, n.tools, BY_TOOL_ID, t.(exposed := true, publicUrl := publicUrl, updatedAt := at))
    else n.tools == s.tools
  }

  ghost predicate Decides(s: State, n: State, scope: Scope, subject: string, id: string, ruling: Ruling) {
    Stores(s.decisions, n.decisions, BY_SUBJECT, Decision(scope, subject, id, ruling))
  }

  /** The public URL and the exposure a website request leaves: live if it was cleared, and the
      exposure keeps when it was first requested and first activated. */
  ghost predicate Published(s: State, n: State, id: string, text: string, ruling: Ruling, at: int) {
    && Stores(s.publicUrls, n.publicUrls, BY_URL_TOOL,
              PublicUrl(id, text, if ruling == Cleared then UrlActive else UrlPending, at, at + 2592000000))
    && var status := if ruling == Cleared then ExposureActive
                     else if ruling == Quarantined then ExposureQuarantined else ExposureDenied;
       Stores(s.exposures, n.exposures, BY_EXPOSURE_TOOL,
         match Find(s.exposures, BY_EXPOSURE_TOOL, id)
         case None =>
           Exposure(id, text, status, at, if ruling == Cleared then Some(at) else None, None, at)
         case Some(e) =>
           Exposure(id, text, status, e.requestedAt,
                    if ruling == Cleared && e.activatedAt.None? then Some(at) else e.activatedAt, e.revokedAt, at))
  }

  lemma WebsitePublished(s: State, n: State, id: string, text: string, ruling: Ruling, at: int)
    requires Unique(s.publicUrls, BY_URL_TOOL) && Unique(s.exposures, BY_EXPOSURE_TOOL)
    requires n.publicUrls == Upsert(s.publicUrls, BY_URL_TOOL,
      PublicUrl(id, text, if ruling == Cleared then UrlActive else UrlPending, at, at + THIRTY_DAYS))
    requires n.exposures == Upsert(s.exposures, BY_EXPOSURE_TOOL,
      match Find(s.exposures, BY_EXPOSURE_TOOL, id)
      case Some(e) => TransitionExposure(e, ExposureStatusFor(ruling), text, at)
      case None => CreateExposure(id, text, ExposureStatusFor(ruling), at))
    ensures Published(s, n, id, text, ruling, at)
  {
    hide Find, Upsert, Stores, Unique;
    UpsertStores(s.publicUrls, BY_URL_TOOL,
      PublicUrl(id, text, if ruling == Cleared then UrlActive else UrlPending, at, at + THIRTY_DAYS));
    UpsertStores(s.exposures, BY_EXPOSURE_TOOL,
      match Find(s.exposures, BY_EXPOSURE_TOOL, id)
      case Some(e) => TransitionExposure(e, ExposureStatusFor(ruling), text, at)
      case None => CreateExposure(id, text, ExposureStatusFor(ruling), at));
  }

  /** An address request records the decision and the address, which is active exactly when it was
      cleared; a cleared one exposes the tool, and a website request publishes it. */
  lemma AddressRequestDoes(s: State, op: Op, t: Tool, at: int) returns (name: string, text: string)
    requires Consistent(s) && op.RequestAddress? && GetTool(s, op.id) == Some(t)
    ensures IsName(op.subject, op.id, name) && IsPublicText(s, op.kind, op.desiredHost, name, text)
    ensures var n := After(s, op, at);
      var ruling := EvaluateGuardianRequest(Some(t), op.desiredHost, op.facts);
      var cleared := ruling == Cleared;
      && Stores(s.addresses, n.addresses, BY_ADDRESS,
                Address(op.id, op.kind, name, text, if cleared then AddressActive else AddressRequested, at,
                        if cleared then Some(at) else None, None, at))
      && Decides(s, n, ExposureScope, op.id + ":address:" + KindText(op.kind), op.id, ruling)
      && Exposed(s, n, t, cleared, if op.kind == Website then Some(text) else t.publicUrl, at)
      && (if op.kind == Website then Published(s, n, op.id, text, ruling, at)
          else n.publicUrls == s.publicUrls && n.exposures == s.exposures)
      && n.domains == s.domains && n.maintenance == s.maintenance && n.cloudDomain == s.cloudDomain
  {
    hide Find, Upsert, Stores, Unique, EvaluateGuardianRequest, BuildPublicAddress, NormalizeSubject, IsName,
      IsPublicText, AddressSubject, KindText, Published;
    name, text := NormalizeSubject(op.subject, op.id), BuildPublicAddress(s.cloudDomain, op.id, op.kind, op.subject,
                                                                         op.desiredHost);
    NameIs(op.subject, op.id);
    PublicTextIs(s, op.id, op.kind, op.subject, op.desiredHost);
    var ruling := EvaluateGuardianRequest(Some(t), op.desiredHost, op.facts);
    SubjectTexts(op.id, op.kind, "");
    UpsertStores(s.addresses, BY_ADDRESS,
      Address(op.id, op.kind, name, text, if ruling == Cleared then AddressActive else AddressRequested, at,
              if ruling == Cleared then Some(at) else None, None, at));
    UpsertStores(s.decisions, BY_SUBJECT, Decision(ExposureScope, AddressSubject(op.id, op.kind), op.id, ruling));
    UpsertStores(s.tools, BY_TOOL_ID,
      t.(exposed := true, publicUrl := if op.kind == Website then Some(text) else t.publicUrl, updatedAt := at));
    if op.kind == Website { WebsitePublished(s, After(s, op, at), op.id, text, ruling, at); }
  }

  /** An exposure request records the decision and a fresh exposure, and a cleared one exposes the
      tool; no address and no public URL is made. */
  lemma ExposureRequestDoes(s: State, op: Op, t: Tool, at: int) returns (text: string)
    requires Consistent(s) && op.RequestExposure? && GetTool(s, op.id) == Some(t)
    ensures IsWebText(op.desiredHost, op.id + "." + s.cloudDomain, text)
    ensures var n := After(s, op, at);
      var ruling := EvaluateGuardianRequest(Some(t), op.desiredHost, op.facts);
      var status := if ruling == Cleared then ExposureActive
                    else if ruling == Quarantined then ExposureQuarantined else ExposureDenied;
      && Stores(s.exposures, n.exposures, BY_EXPOSURE_TOOL,
                Exposure(op.id, text, status, at, if ruling == Cleared then Some(at) else None, None, at))
      && Decides(s, n, ExposureScope, op.id + ":exposure", op.id, ruling)
      && Exposed(s, n, t, ruling == Cleared, Some(text), at)
      && n == s.(tools := n.tools, exposures := n.exposures, decisions := n.decisions)
  {
    hide Find, Upsert, Stores, Unique, EvaluateGuardianRequest, WebAddress, IsWebText, ExposureSubject;
    text := WebAddress(op.desiredHost, op.id + "." + s.cloudDomain);
    WebTextIs(op.desiredHost, op.id + "." + s.cloudDomain);
    var ruling := EvaluateGuardianRequest(Some(t), op.desiredHost, op.facts);
    SubjectTexts(op.id, Website, "");
    UpsertStores(s.exposures, BY_EXPOSURE_TOOL,
      TransitionExposure(CreateExposure(op.id, text, ExposureRequested, at), ExposureStatusFor(ruling), text, at));
    UpsertStores(s.decisions, BY_SUBJECT, Decision(ExposureScope, ExposureSubject(op.id), op.id, ruling));
    UpsertStores(s.tools, BY_TOOL_ID, t.(exposed := true, publicUrl := Some(text), updatedAt := at));
  }

  /** A domain request needs an active public URL of the tool. It records the decision and a fresh
      binding: denied, quarantined, or as the domain stood before, pending if it is new. */
  lemma DomainRequestDoes(s: State, op: Op, at: int)
    requires Consistent(s) && op.RequestDomain?
    ensures var n := After(s, op, at);
      var url := Find(s.publicUrls, BY_URL_TOOL, op.id);
      var was := Find(s.domains, BY_DOMAIN, op.domain);
      var ruling := EvaluateGuardianRequest(GetTool(s, op.id), Some(op.domain), op.facts);
      if url.None? || url.value.status != UrlActive then n == s
      else
        var status :=
          if ruling == Cleared then (if was.Some? then was.value.status else DomainPending)
          else if ruling == Quarantined then DomainQuarantined else DomainDenied;
        && Stores(s.domains, n.domains, BY_DOMAIN,
             Domain(op.domain, op.id, url.value.url, op.token, status, at,
                    if status == DomainVerified then Some(at) else None,
                    if status == DomainRevoked then Some(at) else None, at))
        && Decides(s, n, DomainScope, op.id + ":domain:" + op.domain, op.id, ruling)
        && n == s.(domains := n.domains, decisions := n.decisions)
  {
    hide Find, Upsert, Stores, Unique, EvaluateGuardianRequest, DomainSubject;
    var url := Find(s.publicUrls, BY_URL_TOOL, op.id);
    var was := Find(s.domains, BY_DOMAIN, op.domain);
    var ruling := EvaluateGuardianRequest(GetTool(s, op.id), Some(op.domain), op.facts);
    SubjectTexts(op.id, Website, op.domain);
    if url.Some? && url.value.status == UrlActive {
      var status :=
        if ruling == Cleared then (if was.Some? then was.value.status else DomainPending)
        else if ruling == Quarantined then DomainQuarantined else DomainDenied;
      UpsertStores(s.domains, BY_DOMAIN, CreateDomain(op.domain, op.id, url.value.url, op.token, status, at));
      UpsertStores(s.decisions, BY_SUBJECT, Decision(DomainScope, DomainSubject(op.id, op.domain), op.id, ruling));
    }
  }

  /** A domain is verified by its own token and revoked without one; any other token changes
      nothing. */
  lemma DomainChangeDoes(s: State, op: Op, d: Domain, at: int)
    requires Consistent(s) && (op.VerifyDomain? || op.RevokeDomain?) && Find(s.domains, BY_DOMAIN, op.domain) == Some(d)
    ensures var n := After(s, op, at);
      if op.VerifyDomain? && op.token != d.token then n == s
      else
        n == s.(domains := n.domains) && Stores(s.domains, n.domains, BY_DOMAIN,
          if op.VerifyDomain? then d.(status := DomainVerified, verifiedAt := Some(at), updatedAt := at)
          else d.(status := DomainRevoked, revokedAt := Some(at), updatedAt := at))
  {
    hide Find, Upsert, Stores, Unique;
    UpsertStores(s.domains, BY_DOMAIN,
      if op.VerifyDomain? then d.(status := DomainVerified, verifiedAt := Some(at), updatedAt := at)
      else d.(status := DomainRevoked, revokedAt := Some(at), updatedAt := at));
  }

  // ---------- revocations ----------

  ghost predicate Hit(a: Address, id: string, only: Option<AddressKind>) {
    a.toolId == id && (only == None || only == Some(a.kind))
  }

  /** Every address that is hit is revoked where it stands. */
  ghost predicate RevokesAddresses(s: State, n: State, id: string, only: Option<AddressKind>, at: int) {
    |n.addresses| == |s.addresses| && forall i :: 0 <= i < |s.addresses| ==>
      n.addresses[i] ==
      if Hit(s.addresses[i], id, only)
      then s.addresses[i].(status := AddressRevoked, revokedAt := Some(at), updatedAt := at) else s.addresses[i]
  }

  ghost predicate RevokesUrls(s: State, n: State, id: string) {
    |n.publicUrls| == |s.publicUrls| && forall i :: 0 <= i < |s.publicUrls| ==>
      n.publicUrls[i] ==
      if s.publicUrls[i].toolId == id then s.publicUrls[i].(status := UrlRevoked) else s.publicUrls[i]
  }

  lemma AddressesRevoked(s: State, id: string, only: Option<AddressKind>, at: int)
    ensures forall a :: Hit(a, id, only) <==> AddressMatches(a, id, only)
    ensures RevokesAddresses(s, s.(addresses := RevokeAddresses(s.addresses, id, only, at)), id, only, at)
  {
  }

  lemma UrlsRevoked(s: State, id: string)
    ensures RevokesUrls(s, s.(publicUrls := RevokeUrls(s.publicUrls, id)), id)
  {
  }

  lemma NoneRevoked(s: State, id: string, only: Option<AddressKind>, at: int)
    requires forall a :: a in s.addresses ==> !Hit(a, id, only)
    ensures RevokesAddresses(s, s, id, only, at)
  {
    hide Hit;
  }

  lemma SameRevoked(s: State, n: State, m: State, id: string, only: Option<AddressKind>, at: int)
    requires RevokesAddresses(s, n, id, only, at) && m.addresses == n.addresses
    ensures RevokesAddresses(s, m, id, only, at)
  {
  }

  lemma SameUrlsRevoked(s: State, n: State, m: State, id: string)
    requires RevokesUrls(s, n, id) && m.publicUrls == n.publicUrls
    ensures RevokesUrls(s, m, id)
  {
  }

  lemma AddressRevocationIs(s: State, id: string, only: Option<AddressKind>, at: int)
    ensures After(s, RevokeAddress(id, only), at) == AfterAddressRevocation(s, id, only, at)
  {
    hide AfterAddressRevocation;
  }

  /** The tool is retired when something was revoked and none of its addresses is active. */
  ghost predicate Retires(s: State, n: State, id: string, some: bool, at: int) {
    if some && GetTool(s, id).Some? && forall a :: a in n.addresses && a.toolId == id ==> a.status != AddressActive
    then Stores(s.tools, n.tools, BY_TOOL_ID,
                GetTool(s, id).value.(exposed := false, publicUrl := None, updatedAt := at))
    else n.tools == s.tools
  }

  lemma Retired(s: State, revoked: State, id: string, at: int)
    requires Unique(s.tools, BY_TOOL_ID) && revoked.tools == s.tools
    ensures var n := if exists a :: a in revoked.addresses && a.toolId == id && a.status == AddressActive then revoked
                     else UpdateTool(revoked, id, (t: Tool) =>
                       t.(exposed := false, publicUrl := None, updatedAt := at));
      Retires(s, n, id, true, at) && n == revoked.(tools := n.tools)
  {
    hide Upsert, Stores, Find;
    ToolUpdated(revoked, id, (t: Tool) => t.(exposed := false, publicUrl := None, updatedAt := at));
  }

  /** An address revocation revokes the addresses in question where they stand, the tool's public
      URL if a website is among them, and retires the tool if it has no active address left. */
  lemma AddressRevocationDoes(s: State, id: string, only: Option<AddressKind>, at: int)
    requires Consistent(s)
    ensures var n := After(s, RevokeAddress(id, only), at);
      && n == s.(addresses := n.addresses, publicUrls := n.publicUrls, tools := n.tools)
      && RevokesAddresses(s, n, id, only, at)
      && (if exists a :: a in s.addresses && Hit(a, id, only) && a.kind == Website then RevokesUrls(s, n, id)
          else n.publicUrls == s.publicUrls)
      && Retires(s, n, id, exists a :: a in s.addresses && Hit(a, id, only), at)
  {
    hide After, UpdateTool, Retires, RevokesAddresses, RevokesUrls, RevokeAddresses, RevokeUrls, Hit, AddressMatches,
      Unique, Consistent;
    ToolRegistry.KeysUnique(s);
    AddressRevocationIs(s, id, only, at);
    AddressesRevoked(s, id, only, at);
    UrlsRevoked(s, id);
    var n := After(s, RevokeAddress(id, only), at);
    if exists a :: a in s.addresses && Hit(a, id, only) {
      var site := exists a :: a in s.addresses && AddressMatches(a, id, only) && a.kind == Website;
      var revoked := s.(addresses := RevokeAddresses(s.addresses, id, only, at),
                        publicUrls := if site then RevokeUrls(s.publicUrls, id) else s.publicUrls);
      Retired(s, revoked, id, at);
      SameRevoked(s, s.(addresses := RevokeAddresses(s.addresses, id, only, at)), n, id, only, at);
      if site { SameUrlsRevoked(s, s.(publicUrls := RevokeUrls(s.publicUrls, id)), n, id); }
    } else {
      NoneRevoked(s, id, only, at);
      NothingRetires(s, id, at);
    }
  }

  lemma NothingRetires(s: State, id: string, at: int)
    ensures Retires(s, s, id, false, at)
  {
  }

  /** What an address revocation returns: the records it revoked, as they are afterwards, in the
      order of the table. */
  lemma {:induction false} RevocationReturns(addresses: seq<Address>, id: string, only: Option<AddressKind>, at: int)
    returns (places: seq<nat>)
    ensures var revoked := ToolRegistry.RevocationsOf(addresses, id, only, at);
      && Places(places, addresses, (a: Address) => Hit(a, id, only)) && |revoked| == |places|
      && forall k :: 0 <= k < |places| ==>
           revoked[k] == addresses[places[k]].(status := AddressRevoked, revokedAt := Some(at), updatedAt := at)
    decreases |addresses|
  {
    hide Places;
    var hit := (a: Address) => Hit(a, id, only);
    places := [];
    if addresses == [] {
      NoPlaces(hit);
    } else {
      var last: nat := |addresses| - 1;
      places := RevocationReturns(addresses[..last], id, only, at);
      PlacesOn(places, addresses, hit);
      PlacesWithin(places, addresses[..last], hit);
      if hit(addresses[last]) { places := places + [last]; }
    }
  }

  lemma PlacesWithin<R>(at: seq<nat>, s: seq<R>, matches: R -> bool)
    requires Places(at, s, matches)
    ensures forall k :: 0 <= k < |at| ==> at[k] < |s|
  {
  }

  /** Revoking an exposure on record revokes every record of the tool in four tables and takes the
      tool out of sight; its public URL stays in its record. */
  lemma ExposureRevocationDoes(s: State, id: string, at: int)
    requires Consistent(s)
    ensures var n := After(s, RevokeExposure(id), at);
      if forall e :: e in s.exposures ==> e.toolId != id then n == s
      else
        && RevokesAddresses(s, n, id, None, at) && RevokesUrls(s, n, id)
        && |n.exposures| == |s.exposures| && (forall i :: 0 <= i < |s.exposures| ==>
             n.exposures[i] ==
             if s.exposures[i].toolId == id
             then s.exposures[i].(status := ExposureRevoked, revokedAt := Some(at), updatedAt := at)
             else s.exposures[i])
        && |n.domains| == |s.domains| && (forall i :: 0 <= i < |s.domains| ==>
             n.domains[i] ==
             if s.domains[i].toolId == id
             then s.domains[i].(status := DomainRevoked, revokedAt := Some(at), updatedAt := at) else s.domains[i])
        && (match GetTool(s, id)
            case None => n.tools == s.tools
            case Some(t) => Stores(s.tools, n.tools, BY_TOOL_ID, t.(exposed := false, updatedAt := at)))
        && n.decisions == s.decisions && n.maintenance == s.maintenance && n.cloudDomain == s.cloudDomain
  {
    hide Find, Upsert, Stores, Unique;
    var revoked := s.(exposures := RevokeExposures(s.exposures, id, at),
                      publicUrls := RevokeUrls(s.publicUrls, id),
                      addresses := RevokeAddresses(s.addresses, id, None, at),
                      domains := RevokeDomains(s.domains, id, at));
    ToolUpdated(revoked, id, (t: Tool) => t.(exposed := false, updatedAt := at));
  }

  // ---------- maintenance ----------

  lemma MaintenanceIs(s: State, w: Window, at: int)
    ensures var existing := Find(s.maintenance, BY_PART, w.subjectId);
      After(s, StartMaintenance(w), at) == s.(maintenance := Upsert(s.maintenance, BY_PART,
        if existing.Some? then w.(startedAt := existing.value.startedAt) else w))
    ensures After(s, ClearMaintenance(w.subjectId), at) ==
      s.(maintenance := WithoutWindow(s.maintenance, w.subjectId))
  {
    hide Upsert, WithoutWindow, Find;
  }

  /** A new window takes its place; one that revises another keeps the other's start. Ending a
      window takes out that one alone. */
  lemma MaintenanceDoes(s: State, w: Window, at: int)
    requires Consistent(s)
    ensures var n := After(s, StartMaintenance(w), at);
      n == s.(maintenance := n.maintenance)
      && exists u :: Stores(s.maintenance, n.maintenance, BY_PART, u) && u == w.(startedAt := u.startedAt)
           && ((forall x :: x in s.maintenance ==> x.subjectId != w.subjectId) ==> u == w)
           && (forall x :: x in s.maintenance && x.subjectId == w.subjectId ==> u.startedAt == x.startedAt)
    ensures var n := After(s, ClearMaintenance(w.subjectId), at);
      n == s.(maintenance := n.maintenance)
      && forall x :: x in n.maintenance <==> x in s.maintenance && x.subjectId != w.subjectId
  {
    hide Upsert, Stores, Consistent, After, WithoutWindow;
    ToolRegistry.KeysUnique(s);
    MaintenanceIs(s, w, at);
    var existing := Find(s.maintenance, BY_PART, w.subjectId);
    var u := if existing.Some? then w.(startedAt := existing.value.startedAt) else w;
    UpsertStores(s.maintenance, BY_PART, u);
    forall x | x in s.maintenance && x.subjectId == w.subjectId ensures u.startedAt == x.startedAt {
      KeyedFind(s.maintenance, BY_PART, x);
    }
    WithoutOneWindow(s.maintenance, w.subjectId);
  }

  lemma {:induction false} WithoutOneWindow(ws: seq<Window>, subjectId: string)
    requires Unique(ws, BY_PART)
    ensures forall w :: w in WithoutWindow(ws, subjectId) <==> w in ws && w.subjectId != subjectId
  {
    if ws != [] {
      forall w | w in ws[1..] && ws[0].subjectId == subjectId ensures w.subjectId != subjectId {
        var i :| 0 <= i < |ws[1..]| && ws[1..][i] == w;
        assert BY_PART(ws[0]) != BY_PART(ws[i + 1]);
      }
      assert forall w :: w in ws <==> w == ws[0] || w in ws[1..];
      if ws[0].subjectId != subjectId { WithoutOneWindow(ws[1..], subjectId); }
    }
  }
}
