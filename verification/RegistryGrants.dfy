/** Where active addresses, active exposures and verified domains come from. */
module RegistryGrants {
  import opened Wrappers
  import opened Tables
  import opened RegistryState
  import opened RegistryLaws

  ghost predicate Clears(s: State, id: string, host: Option<string>, facts: HostFacts) {
    GetTool(s, id).Some? && EvaluateGuardianRequest(GetTool(s, id), host, facts) == Cleared
  }

  ghost predicate GrantsAddress(s: State, op: Op, a: Address) {
    op.RequestAddress? && a.toolId == op.id && a.kind == op.kind && Clears(s, op.id, op.desiredHost, op.facts)
  }

  /** A website request grants an exposure as well as the address. */
  ghost predicate GrantsExposure(s: State, op: Op, e: Exposure) {
    || (op.RequestExposure? && e.toolId == op.id && Clears(s, op.id, op.desiredHost, op.facts))
    || (op.RequestAddress? && op.kind == Website && e.toolId == op.id && Clears(s, op.id, op.desiredHost, op.facts))
  }

  /** A domain is verified by its token; a cleared request for a verified domain leaves it so. */
  ghost predicate GrantsDomain(s: State, op: Op, d: Domain) {
    || (op.VerifyDomain? && op.domain == d.domain && op.token == d.token)
    || (op.RequestDomain? && op.domain == d.domain && op.id == d.toolId
        && EvaluateGuardianRequest(GetTool(s, op.id), Some(op.domain), op.facts) == Cleared
        && exists old_ :: old_ in s.domains && old_.domain == d.domain && old_.status == DomainVerified)
  }

  /** Whatever is new and live in a table was granted by the operation. */
  ghost predicate Granted(s: State, op: Op, n: State) {
    && (forall a :: a in n.addresses && a.status == AddressActive && a !in s.addresses ==> GrantsAddress(s, op, a))
    && (forall e :: e in n.exposures && e.status == ExposureActive && e !in s.exposures ==> GrantsExposure(s, op, e))
    && (forall d :: d in n.domains && d.status == DomainVerified && d !in s.domains ==> GrantsDomain(s, op, d))
  }

  lemma SameGranted(s: State, op: Op, n: State)
    requires SameResources(s, n)
    ensures Granted(s, op, n)
  {
  }

  lemma ToolChangeGranted(s: State, op: Op, id: string, change: Tool -> Tool)
    ensures Granted(s, op, UpdateTool(s, id, change))
  {
    hide GrantsAddress, GrantsExposure, GrantsDomain;
  }

  lemma AddressRequestGranted(s: State, op: Op, at: int)
    requires Consistent(s) && op.RequestAddress? && GetTool(s, op.id).Some?
    ensures Granted(s, op, After(s, op, at))
  {
    hide EvaluateGuardianRequest, BuildPublicAddress, NormalizeSubject, Granted;
    var n := After(s, op, at);
    var tool := GetTool(s, op.id).value;
    var ruling := EvaluateGuardianRequest(Some(tool), op.desiredHost, op.facts);
    var text := BuildPublicAddress(s.cloudDomain, tool.id, op.kind, op.subject, op.desiredHost);
    var record := CreateAddress(tool.id, op.kind, NormalizeSubject(op.subject, tool.id), text,
                                if ruling == Cleared then AddressActive else AddressRequested, at);
    UpsertMembers(s.addresses, BY_ADDRESS, record);
    var exposure := match Find(s.exposures, BY_EXPOSURE_TOOL, tool.id)
      case Some(e) => TransitionExposure(e, ExposureStatusFor(ruling), text, at)
      case None => CreateExposure(tool.id, text, ExposureStatusFor(ruling), at);
    UpsertMembers(s.exposures, BY_EXPOSURE_TOOL, exposure);
    assert n.addresses == Upsert(s.addresses, BY_ADDRESS, record) && n.domains == s.domains;
    assert n.exposures == if op.kind == Website then Upsert(s.exposures, BY_EXPOSURE_TOOL, exposure) else s.exposures;
    assert record.status == AddressActive ==> GrantsAddress(s, op, record);
    assert exposure.status == ExposureActive && op.kind == Website ==> GrantsExposure(s, op, exposure);
    GrantedByUpserts(s, op, n, record, exposure);
  }

  lemma GrantedByUpserts(s: State, op: Op, n: State, record: Address, exposure: Exposure)
    requires forall a :: a in n.addresses ==> a == record || a in s.addresses
    requires n.domains == s.domains && op.RequestAddress?
    requires forall e :: e in n.exposures ==> (op.kind == Website && e == exposure) || e in s.exposures
    requires record.status == AddressActive ==> GrantsAddress(s, op, record)
    requires exposure.status == ExposureActive && op.kind == Website ==> GrantsExposure(s, op, exposure)
    ensures Granted(s, op, n)
  {
    hide GrantsAddress, GrantsExposure, GrantsDomain;
  }

  lemma ExposureRequestGranted(s: State, op: Op, at: int)
    requires Consistent(s) && op.RequestExposure? && GetTool(s, op.id).Some?
    ensures Granted(s, op, After(s, op, at))
  {
    hide EvaluateGuardianRequest, WebAddress;
    var tool := GetTool(s, op.id).value;
    var ruling := EvaluateGuardianRequest(Some(tool), op.desiredHost, op.facts);
    var url := WebAddress(op.desiredHost, tool.id + "." + s.cloudDomain);
    UpsertMembers(s.exposures, BY_EXPOSURE_TOOL,
      TransitionExposure(CreateExposure(tool.id, url, ExposureRequested, at), ExposureStatusFor(ruling), url, at));
  }

  lemma DomainRequestGranted(s: State, op: Op, at: int)
    requires Consistent(s) && op.RequestDomain?
    ensures Granted(s, op, After(s, op, at))
  {
    hide EvaluateGuardianRequest;
    var url := Find(s.publicUrls, BY_URL_TOOL, op.id);
    if url.Some? && url.value.status == UrlActive {
      var ruling := EvaluateGuardianRequest(GetTool(s, op.id), Some(op.domain), op.facts);
      var status := match ruling
        case Cleared =>
          (match Find(s.domains, BY_DOMAIN, op.domain) case Some(d) => d.status case None => DomainPending)
        case Quarantined => DomainQuarantined
        case _ => DomainDenied;
      UpsertMembers(s.domains, BY_DOMAIN, CreateDomain(op.domain, op.id, url.value.url, op.token, status, at));
    }
  }

  lemma DomainChangeGranted(s: State, op: Op, at: int)
    requires Consistent(s) && (op.VerifyDomain? || op.RevokeDomain?)
    ensures Granted(s, op, After(s, op, at))
  {
    var found := Find(s.domains, BY_DOMAIN, op.domain);
    if found.Some? {
      var changed := if op.VerifyDomain? then VerifyDomainRecord(found.value, op.token, at)
                     else Some(RevokeDomainRecord(found.value, at));
      if changed.Some? { UpsertMembers(s.domains, BY_DOMAIN, changed.value); }
    }
  }

  lemma AddressRevocationGranted(s: State, op: Op, at: int)
    requires op.RevokeAddress?
    ensures Granted(s, op, AfterAddressRevocation(s, op.id, op.only, at))
  {
    hide GrantsAddress, GrantsExposure, GrantsDomain;
    MapWhereMembers(s.addresses, (a: Address) => AddressMatches(a, op.id, op.only),
                    (a: Address) => RevokeAddressRecord(a, at));
  }

  lemma ExposureRevocationGranted(s: State, op: Op, at: int)
    requires op.RevokeExposure?
    ensures Granted(s, op, AfterExposureRevocation(s, op.id, at))
  {
    hide GrantsAddress, GrantsExposure, GrantsDomain;
    MapWhereMembers(s.exposures, (e: Exposure) => e.toolId == op.id, (e: Exposure) => RevokeExposureRecord(e, at));
    MapWhereMembers(s.addresses, (a: Address) => AddressMatches(a, op.id, None),
                    (a: Address) => RevokeAddressRecord(a, at));
    MapWhereMembers(s.domains, (d: Domain) => d.toolId == op.id, (d: Domain) => RevokeDomainRecord(d, at));
  }

  /** Nothing becomes live by itself: an address or exposure that turns active was cleared by
      the guardian in the very operation, and a domain that turns verified was verified by its
      own token, or was verified already when a cleared request took it over. */
  lemma ActivationNeedsClearance(s: State, op: Op, at: int)
    requires Consistent(s)
    ensures Granted(s, op, After(s, op, at))
  {
    hide Consistent, Granted, EvaluateGuardianRequest, AfterAddressRequest, AfterExposureRequest,
      AfterAddressRevocation, AfterExposureRevocation, AfterDomainRequest, BuildTool, BeatTool, PatchTool, UpdateTool,
      VerifyDomainRecord, RevokeDomainRecord;
    match op
    case Heartbeat(t, upstream, health, phantom) =>
      ToolChangeGranted(s, op, t, (t: Tool) => BeatTool(t, upstream, health, phantom, at));
    case Expire(t) =>
      ToolChangeGranted(s, op, t, (t: Tool) => t.(health := Offline, registration := Expired, updatedAt := at));
    case PatchMetadata(t, patch) => ToolChangeGranted(s, op, t, (t: Tool) => PatchTool(t, patch, at));
    case SetEnabled(t, enabled) =>
      ToolChangeGranted(s, op, t, (t: Tool) => t.(exposed := enabled, updatedAt := at));
    case RequestAddress(t, _, _, _, _) =>
      if GetTool(s, t).Some? { AddressRequestGranted(s, op, at); } else { SameGranted(s, op, s); }
    case RevokeAddress(_, _) => AddressRevocationGranted(s, op, at);
    case RequestExposure(t, _, _) =>
      if GetTool(s, t).Some? { ExposureRequestGranted(s, op, at); } else { SameGranted(s, op, s); }
    case RevokeExposure(_) => ExposureRevocationGranted(s, op, at);
    case RequestDomain(_, _, _, _) => DomainRequestGranted(s, op, at);
    case VerifyDomain(_, _) => DomainChangeGranted(s, op, at);
    case RevokeDomain(_) => DomainChangeGranted(s, op, at);
    case _ => SameGranted(s, op, After(s, op, at));
  }

  /** In every reachable state, each active address was granted by some operation of the run,
      to a tool the guardian cleared at that moment. */
  lemma {:induction false} ActiveAddressWasCleared(cloudDomain: string, ops: seq<(Op, int)>, a: Address)
    requires a in Run(Empty(cloudDomain), ops).addresses && a.status == AddressActive
    ensures exists k :: 0 <= k < |ops| && GrantsAddress(Run(Empty(cloudDomain), ops[..k]), ops[k].0, a)
    decreases |ops|
  {
    hide Consistent, After, GrantsAddress, GrantsExposure, GrantsDomain;
    var last := |ops| - 1;
    var before := Run(Empty(cloudDomain), ops[..last]);
    EmptyConsistent(cloudDomain);
    RunConsistent(Empty(cloudDomain), ops[..last]);
    ActivationNeedsClearance(before, ops[last].0, ops[last].1);
    if a in before.addresses {
      ActiveAddressWasCleared(cloudDomain, ops[..last], a);
      var k :| 0 <= k < last && GrantsAddress(Run(Empty(cloudDomain), ops[..last][..k]), ops[..last][k].0, a);
      assert ops[..last][..k] == ops[..k] && ops[..last][k] == ops[k];
    } else {
      assert GrantsAddress(before, ops[last].0, a);
    }
  }

  /** The same of active exposures. */
  lemma {:induction false} ActiveExposureWasCleared(cloudDomain: string, ops: seq<(Op, int)>, e: Exposure)
    requires e in Run(Empty(cloudDomain), ops).exposures && e.status == ExposureActive
    ensures exists k :: 0 <= k < |ops| && GrantsExposure(Run(Empty(cloudDomain), ops[..k]), ops[k].0, e)
    decreases |ops|
  {
    hide Consistent, After, GrantsAddress, GrantsExposure, GrantsDomain;
    var last := |ops| - 1;
    var before := Run(Empty(cloudDomain), ops[..last]);
    EmptyConsistent(cloudDomain);
    RunConsistent(Empty(cloudDomain), ops[..last]);
    ActivationNeedsClearance(before, ops[last].0, ops[last].1);
    if e in before.exposures {
      ActiveExposureWasCleared(cloudDomain, ops[..last], e);
      var k :| 0 <= k < last && GrantsExposure(Run(Empty(cloudDomain), ops[..last][..k]), ops[..last][k].0, e);
      assert ops[..last][..k] == ops[..k] && ops[..last][k] == ops[k];
    } else {
      assert GrantsExposure(before, ops[last].0, e);
    }
  }

  /** And of verified domains: each became, or stayed, verified under an operation that grants it. */
  lemma {:induction false} VerifiedDomainWasGranted(cloudDomain: string, ops: seq<(Op, int)>, d: Domain)
    requires d in Run(Empty(cloudDomain), ops).domains && d.status == DomainVerified
    ensures exists k :: 0 <= k < |ops| && GrantsDomain(Run(Empty(cloudDomain), ops[..k]), ops[k].0, d)
    decreases |ops|
  {
    hide Consistent, After, GrantsAddress, GrantsExposure, GrantsDomain;
    var last := |ops| - 1;
    var before := Run(Empty(cloudDomain), ops[..last]);
    EmptyConsistent(cloudDomain);
    RunConsistent(Empty(cloudDomain), ops[..last]);
    ActivationNeedsClearance(before, ops[last].0, ops[last].1);
    if d in before.domains {
      VerifiedDomainWasGranted(cloudDomain, ops[..last], d);
      var k :| 0 <= k < last && GrantsDomain(Run(Empty(cloudDomain), ops[..last][..k]), ops[..last][k].0, d);
      assert ops[..last][..k] == ops[..k] && ops[..last][k] == ops[k];
    } else {
      assert GrantsDomain(before, ops[last].0, d);
    }
  }

  // ---------- who a verified domain belongs to ----------

  /** A request by another tool, with a public URL of its own, for a domain that is bound. */
  ghost predicate TakesOver(s: State, op: Op, bound: Domain) {
    && op.RequestDomain? && op.domain == bound.domain && op.id != bound.toolId
    && exists u :: Find(s.publicUrls, BY_URL_TOOL, op.id) == Some(u) && u.status == UrlActive
  }

  lemma DomainRequestOwner(s: State, op: Op, at: int, bound: Domain)
    requires op.RequestDomain? && Find(s.domains, BY_DOMAIN, bound.domain) == Some(bound)
    ensures var after := AfterDomainRequest(s, op.id, op.domain, op.token, op.facts, at);
      var n := Find(after.domains, BY_DOMAIN, bound.domain);
      && n.Some?
      && (n.value.toolId != bound.toolId <==> TakesOver(s, op, bound))
      && (TakesOver(s, op, bound)
          && EvaluateGuardianRequest(GetTool(s, op.id), Some(op.domain), op.facts) == Cleared ==>
            n.value.status == bound.status && n.value.toolId == op.id && n.value.token == op.token)
      && (TakesOver(s, op, bound)
          && EvaluateGuardianRequest(GetTool(s, op.id), Some(op.domain), op.facts) != Cleared ==>
            n.value.status != DomainVerified)
  {
    hide EvaluateGuardianRequest;
    var url := Find(s.publicUrls, BY_URL_TOOL, op.id);
    if url.Some? && url.value.status == UrlActive {
      var ruling := EvaluateGuardianRequest(GetTool(s, op.id), Some(op.domain), op.facts);
      var status := match ruling
        case Cleared =>
          (match Find(s.domains, BY_DOMAIN, op.domain) case Some(d) => d.status case None => DomainPending)
        case Quarantined => DomainQuarantined
        case _ => DomainDenied;
      FindUpsert(s.domains, BY_DOMAIN, CreateDomain(op.domain, op.id, url.value.url, op.token, status, at),
                 bound.domain);
    }
  }

  lemma DomainChangeOwner(s: State, op: Op, at: int, bound: Domain)
    requires (op.VerifyDomain? || op.RevokeDomain?) && Find(s.domains, BY_DOMAIN, bound.domain) == Some(bound)
    ensures var n := Find(After(s, op, at).domains, BY_DOMAIN, bound.domain);
      n.Some? && n.value.toolId == bound.toolId
  {
    hide Upsert;
    var found := Find(s.domains, BY_DOMAIN, op.domain);
    if found.Some? {
      if op.RevokeDomain? {
        FindUpsert(s.domains, BY_DOMAIN, RevokeDomainRecord(found.value, at), bound.domain);
      } else {
        var verified := VerifyDomainRecord(found.value, op.token, at);
        if verified.Some? { FindUpsert(s.domains, BY_DOMAIN, verified.value, bound.domain); }
      }
    }
  }

  lemma {:induction false} RevokedDomainFound(ds: seq<Domain>, id: string, at: int, domain: string)
    requires Find(ds, BY_DOMAIN, domain).Some?
    ensures var n := Find(RevokeDomains(ds, id, at), BY_DOMAIN, domain);
      n.Some? && n.value.toolId == Find(ds, BY_DOMAIN, domain).value.toolId
  {
    var revoked := RevokeDomains(ds, id, at);
    if ds[0].domain != domain {
      RevokedDomainFound(ds[1..], id, at, domain);
      assert revoked[1..] == RevokeDomains(ds[1..], id, at);
    }
  }

  lemma RevocationOwner(s: State, id: string, at: int, bound: Domain)
    requires Find(s.domains, BY_DOMAIN, bound.domain) == Some(bound)
    ensures var n := Find(AfterExposureRevocation(s, id, at).domains, BY_DOMAIN, bound.domain);
      n.Some? && n.value.toolId == bound.toolId
  {
    RevokedDomainFound(s.domains, id, at, bound.domain);
    if Find(s.exposures, BY_EXPOSURE_TOOL, id).Some? {
      assert AfterExposureRevocation(s, id, at).domains == RevokeDomains(s.domains, id, at);
    }
  }

  /** A bound domain stays bound, and passes to another tool exactly when that tool, with an
      active public URL, requests it: no token is asked for. */
  lemma DomainOwnerMovesIff(s: State, op: Op, at: int, bound: Domain)
    requires Find(s.domains, BY_DOMAIN, bound.domain) == Some(bound)
    ensures var n := Find(After(s, op, at).domains, BY_DOMAIN, bound.domain);
      n.Some? && (n.value.toolId != bound.toolId <==> TakesOver(s, op, bound))
  {
    hide EvaluateGuardianRequest, AfterAddressRequest, AfterExposureRequest, AfterAddressRevocation,
      AfterExposureRevocation, AfterDomainRequest, BuildTool, BeatTool, PatchTool, UpdateTool,
      VerifyDomainRecord, RevokeDomainRecord;
    match op
    case Heartbeat(t, upstream, health, phantom) =>
      SameResourcesAfter(s, t, (t: Tool) => BeatTool(t, upstream, health, phantom, at));
    case Expire(t) =>
      SameResourcesAfter(s, t, (t: Tool) => t.(health := Offline, registration := Expired, updatedAt := at));
    case PatchMetadata(t, patch) => SameResourcesAfter(s, t, (t: Tool) => PatchTool(t, patch, at));
    case SetEnabled(t, enabled) => SameResourcesAfter(s, t, (t: Tool) => t.(exposed := enabled, updatedAt := at));
    case RequestAddress(_, _, _, _, _) => RequestsLeaveDomains(s, op, at);
    case RequestExposure(_, _, _) => RequestsLeaveDomains(s, op, at);
    case RevokeAddress(_, _) => RequestsLeaveDomains(s, op, at);
    case RevokeExposure(t) => RevocationOwner(s, t, at, bound);
    case RequestDomain(_, _, _, _) => DomainRequestOwner(s, op, at, bound);
    case VerifyDomain(_, _) => DomainChangeOwner(s, op, at, bound);
    case RevokeDomain(_) => DomainChangeOwner(s, op, at, bound);
    case _ =>
  }

  lemma RequestsLeaveDomains(s: State, op: Op, at: int)
    requires op.RequestAddress? || op.RequestExposure? || op.RevokeAddress?
    ensures After(s, op, at).domains == s.domains
  {
    hide EvaluateGuardianRequest, BuildPublicAddress, NormalizeSubject, WebAddress, RevokeAddresses, RevokeUrls;
  }

  /** A cleared request takes a verified domain over. */
  ghost predicate HandsOver(s: State, op: Op, bound: Domain) {
    TakesOver(s, op, bound) && bound.status == DomainVerified
    && EvaluateGuardianRequest(GetTool(s, op.id), Some(op.domain), op.facts) == Cleared
  }

  /** Then, and only then, a verified domain is another tool's and still verified: under a token
      nobody has presented. */
  lemma VerifiedDomainIsHandedOverIff(s: State, op: Op, at: int, bound: Domain)
    requires Find(s.domains, BY_DOMAIN, bound.domain) == Some(bound) && bound.status == DomainVerified
    ensures var n := Find(After(s, op, at).domains, BY_DOMAIN, bound.domain);
      && n.Some?
      && (n.value.toolId != bound.toolId && n.value.status == DomainVerified <==> HandsOver(s, op, bound))
      && (HandsOver(s, op, bound) ==> n.value.toolId == op.id && n.value.token == op.token)
  {
    hide EvaluateGuardianRequest, AfterDomainRequest, TakesOver, After;
    DomainOwnerMovesIff(s, op, at, bound);
    if TakesOver(s, op, bound) {
      TakeoverIsRequest(s, op, at, bound);
      DomainRequestOwner(s, op, at, bound);
    }
  }

  lemma TakeoverIsRequest(s: State, op: Op, at: int, bound: Domain)
    requires TakesOver(s, op, bound)
    ensures op.RequestDomain? && After(s, op, at) == AfterDomainRequest(s, op.id, op.domain, op.token, op.facts, at)
  {
    hide AfterDomainRequest;
  }

  /** No step of a run hands a verified domain over. */
  ghost predicate NoneHandedOver(s: State, ops: seq<(Op, int)>) {
    forall k, d :: 0 <= k < |ops| && d in Run(s, ops[..k]).domains ==> !HandsOver(Run(s, ops[..k]), ops[k].0, d)
  }

  /** The step verified the domain of `d`, with its token, when it was bound to the tool of `d`. */
  ghost predicate VerifiedFor(s: State, op: Op, d: Domain) {
    op.VerifyDomain? && op.domain == d.domain
    && exists b :: b in s.domains && b.domain == d.domain && b.toolId == d.toolId && b.token == op.token
  }

  ghost predicate Holds(s: State, d: Domain) {
    exists b :: b in s.domains && b.domain == d.domain && b.toolId == d.toolId
  }

  /** Step `k` of the run did, and the tool has held the domain ever since. */
  ghost predicate VerifiedAt(s: State, ops: seq<(Op, int)>, d: Domain, k: nat) {
    && k < |ops| && VerifiedFor(Run(s, ops[..k]), ops[k].0, d)
    && forall m :: k < m <= |ops| ==> Holds(Run(s, ops[..m]), d)
  }

  /** Every verified domain was verified by presenting its token, for the tool that has held it
      ever since. */
  ghost predicate Owned(s: State, ops: seq<(Op, int)>) {
    forall d :: d in Run(s, ops).domains && d.status == DomainVerified ==> exists k: nat :: VerifiedAt(s, ops, d, k)
  }

  lemma {:induction false} OwnedInRuns(cloudDomain: string, ops: seq<(Op, int)>)
    requires NoneHandedOver(Empty(cloudDomain), ops)
    ensures Owned(Empty(cloudDomain), ops)
    decreases |ops|
  {
    hide After, GrantsAddress, GrantsExposure, VerifiedFor, HandsOver, Consistent, VerifiedAt;
    var start := Empty(cloudDomain);
    if ops != [] {
      var last := |ops| - 1;
      NotHandedOverBefore(start, ops);
      OwnedInRuns(cloudDomain, ops[..last]);
      forall d | d in Run(start, ops).domains && d.status == DomainVerified
        ensures exists k: nat :: VerifiedAt(start, ops, d, k)
      {
        OwnedNow(cloudDomain, ops, d);
      }
    }
  }

  lemma OwnedNow(cloudDomain: string, ops: seq<(Op, int)>, d: Domain)
    requires ops != [] && NoneHandedOver(Empty(cloudDomain), ops) && Owned(Empty(cloudDomain), ops[..|ops| - 1])
    requires d in Run(Empty(cloudDomain), ops).domains && d.status == DomainVerified
    ensures exists k: nat :: VerifiedAt(Empty(cloudDomain), ops, d, k)
  {
    hide After, GrantsAddress, GrantsExposure, VerifiedFor, HandsOver, Consistent, VerifiedAt;
    var start := Empty(cloudDomain);
    var last := |ops| - 1;
    var before := Run(start, ops[..last]);
    EmptyConsistent(cloudDomain);
    RunConsistent(start, ops[..last]);
    ActivationNeedsClearance(before, ops[last].0, ops[last].1);
    if d in before.domains {
      var k: nat :| VerifiedAt(start, ops[..last], d, k);
      HeldOn(start, ops, d, d, k);
    } else if ops[last].0.VerifyDomain? {
      VerifiedNow(before, ops[last].0, ops[last].1, d);
      JustVerified(start, ops, d);
    } else {
      var old_ :| old_ in before.domains && old_.domain == d.domain && old_.status == DomainVerified;
      assert !HandsOver(Run(start, ops[..last]), ops[last].0, old_);
      NotTakenOver(before, ops[last].0, old_, d);
      NotTaken(before, ops[last].0, ops[last].1, old_, d);
      var k: nat :| VerifiedAt(start, ops[..last], old_, k);
      HeldOn(start, ops, old_, d, k);
    }
  }

  lemma NotTakenOver(s: State, op: Op, bound: Domain, d: Domain)
    requires GrantsDomain(s, op, d) && !op.VerifyDomain? && bound.status == DomainVerified && !HandsOver(s, op, bound)
    ensures op.RequestDomain? && op.id == d.toolId && !TakesOver(s, op, bound)
  {
    hide EvaluateGuardianRequest;
  }

  lemma NotHandedOverBefore(s: State, ops: seq<(Op, int)>)
    requires NoneHandedOver(s, ops) && ops != []
    ensures NoneHandedOver(s, ops[..|ops| - 1])
  {
    hide HandsOver, Run;
    var before := ops[..|ops| - 1];
    forall k, d | 0 <= k < |before| && d in Run(s, before[..k]).domains
      ensures !HandsOver(Run(s, before[..k]), before[k].0, d)
    {
      assert before[..k] == ops[..k] && before[k] == ops[k];
    }
  }

  lemma JustVerified(s: State, ops: seq<(Op, int)>, d: Domain)
    requires ops != [] && VerifiedFor(Run(s, ops[..|ops| - 1]), ops[|ops| - 1].0, d) && d in Run(s, ops).domains
    ensures VerifiedAt(s, ops, d, |ops| - 1)
  {
    hide VerifiedFor, Run;
    assert ops[..|ops|] == ops;
  }

  lemma HeldOn(s: State, ops: seq<(Op, int)>, was: Domain, d: Domain, k: nat)
    requires ops != [] && VerifiedAt(s, ops[..|ops| - 1], was, k)
    requires d in Run(s, ops).domains && was.domain == d.domain && was.toolId == d.toolId
    ensures VerifiedAt(s, ops, d, k)
  {
    hide Run;
    var before := ops[..|ops| - 1];
    assert before[..k] == ops[..k] && before[k] == ops[k] && ops[..|ops|] == ops;
    forall m | k < m <= |ops| ensures Holds(Run(s, ops[..m]), d) {
      if m < |ops| { assert before[..m] == ops[..m] && Holds(Run(s, before[..m]), was); }
    }
  }

  lemma HandoverBreaks(cloudDomain: string, ops: seq<(Op, int)>, k: nat, bound: Domain)
    requires k < |ops| && bound in Run(Empty(cloudDomain), ops[..k]).domains
    requires HandsOver(Run(Empty(cloudDomain), ops[..k]), ops[k].0, bound)
    ensures !Owned(Empty(cloudDomain), ops[..k + 1])
  {
    hide After, HandsOver, Consistent, TakesOver;
    var start := Empty(cloudDomain);
    var upto := ops[..k + 1];
    assert upto[..k] == ops[..k] && upto[|upto| - 1] == ops[k];
    var before := Run(start, ops[..k]);
    EmptyConsistent(cloudDomain);
    RunConsistent(start, ops[..k]);
    RunConsistent(start, upto);
    BoundIsFound(before, bound);
    HandoverRequests(before, ops[k].0, bound);
    VerifiedDomainIsHandedOverIff(before, ops[k].0, ops[k].1, bound);
    var d := Find(Run(start, upto).domains, BY_DOMAIN, bound.domain).value;
    if j: nat :| VerifiedAt(start, upto, d, j) {
      if j < k {
        assert Holds(Run(start, upto[..k]), d);
        var b :| b in before.domains && b.domain == d.domain && b.toolId == d.toolId;
        BoundIsFound(before, b);
        assert false;
      }
    }
  }

  lemma BoundIsFound(s: State, bound: Domain)
    requires Consistent(s) && bound in s.domains
    ensures Find(s.domains, BY_DOMAIN, bound.domain) == Some(bound)
  {
    UniqueFound(s.domains, BY_DOMAIN, bound);
  }

  lemma UniqueFound<R, K>(s: seq<R>, key: R -> K, r: R)
    requires Unique(s, key) && r in s
    ensures Find(s, key, key(r)) == Some(r)
  {
    var i :| 0 <= i < |s| && s[i] == r;
    var f := Find(s, key, key(r));
    assert f.Some?;
    var j :| 0 <= j < |s| && s[j] == f.value;
    assert i == j;
  }

  lemma HandoverRequests(s: State, op: Op, bound: Domain)
    requires HandsOver(s, op, bound)
    ensures op.RequestDomain? && !op.VerifyDomain? && bound.status == DomainVerified
  {
  }

  /** All along a run every verified domain is its tool's own, verified by its token and held
      ever since, exactly when no step hands a verified domain over. */
  lemma OwnedIff(cloudDomain: string, ops: seq<(Op, int)>)
    ensures (forall n :: 0 <= n <= |ops| ==> Owned(Empty(cloudDomain), ops[..n]))
      <==> NoneHandedOver(Empty(cloudDomain), ops)
  {
    hide HandsOver, Owned, Run;
    var start := Empty(cloudDomain);
    if NoneHandedOver(start, ops) {
      forall n | 0 <= n <= |ops| ensures Owned(start, ops[..n]) {
        forall k, d | 0 <= k < n && d in Run(start, ops[..n][..k]).domains
          ensures !HandsOver(Run(start, ops[..n][..k]), ops[..n][k].0, d)
        {
          assert ops[..n][..k] == ops[..k] && ops[..n][k] == ops[k];
        }
        OwnedInRuns(cloudDomain, ops[..n]);
      }
    } else {
      var k, d :| 0 <= k < |ops| && d in Run(start, ops[..k]).domains && HandsOver(Run(start, ops[..k]), ops[k].0, d);
      HandoverBreaks(cloudDomain, ops, k, d);
    }
  }

  lemma VerifiedNow(s: State, op: Op, at: int, d: Domain)
    requires Consistent(s) && op.VerifyDomain?
    requires d in After(s, op, at).domains && d !in s.domains
    ensures VerifiedFor(s, op, d)
  {
    var found := Find(s.domains, BY_DOMAIN, op.domain);
    if found.Some? && VerifyDomainRecord(found.value, op.token, at).Some? {
      UpsertMembers(s.domains, BY_DOMAIN, VerifyDomainRecord(found.value, op.token, at).value);
    }
  }

  lemma NotTaken(s: State, op: Op, at: int, bound: Domain, d: Domain)
    requires Consistent(s) && op.RequestDomain? && op.domain == bound.domain && op.id == d.toolId
    requires bound in s.domains && !TakesOver(s, op, bound)
    requires d in After(s, op, at).domains && d !in s.domains
    ensures bound.toolId == d.toolId
  {
    hide EvaluateGuardianRequest;
    var url := Find(s.publicUrls, BY_URL_TOOL, op.id);
    assert url.Some? && url.value.status == UrlActive;
  }

  // ---------- the access gate ----------

  /** The flag of a tool, while it is registered in both states. */
  ghost predicate SameGate(s: State, n: State, id: string) {
    GetTool(s, id).Some? && GetTool(n, id).Some? ==>
      GetTool(n, id).value.requiresAuth == GetTool(s, id).value.requiresAuth
  }

  /** A registered tool stays registered, with its flag. */
  ghost predicate KeepsGate(s: State, n: State, id: string) {
    GetTool(s, id).Some? ==>
      (GetTool(n, id).Some? && GetTool(n, id).value.requiresAuth == GetTool(s, id).value.requiresAuth)
  }

  lemma ToolChangeGate(s: State, t: string, change: Tool -> Tool, id: string)
    requires forall x :: change(x).requiresAuth == x.requiresAuth
    ensures KeepsGate(s, UpdateTool(s, t, change), id)
  {
    if GetTool(s, t).Some? {
      FindUpsert(s.tools, BY_TOOL_ID, change(GetTool(s, t).value).(id := t), id);
    }
  }

  lemma RegisterGate(s: State, input: Registering, at: int, id: string)
    ensures KeepsGate(s, After(s, Register(input), at), id)
  {
    FindUpsert(s.tools, BY_TOOL_ID, BuildTool(input, GetTool(s, input.id), at), id);
  }

  lemma {:induction false} FindWithout(tools: seq<Tool>, gone: string, id: string)
    requires Unique(tools, BY_TOOL_ID)
    ensures Find(Without(tools, gone), BY_TOOL_ID, id) == if id == gone then None else Find(tools, BY_TOOL_ID, id)
  {
    if tools != [] {
      if tools[0].id == gone {
        forall t | t in tools[1..] ensures t.id != gone {
          var i :| 0 <= i < |tools[1..]| && tools[1..][i] == t;
          assert BY_TOOL_ID(tools[0]) != BY_TOOL_ID(tools[i + 1]);
        }
      } else {
        FindWithout(tools[1..], gone, id);
      }
    }
  }

  lemma SameToolsGate(s: State, n: State, id: string)
    requires n.tools == s.tools
    ensures KeepsGate(s, n, id)
  {
  }

  lemma PatchGate(s: State, op: Op, at: int, id: string)
    requires op.PatchMetadata? && (op.id == id ==> op.patch.requiresAuth.None?)
    ensures KeepsGate(s, After(s, op, at), id)
  {
    if GetTool(s, op.id).Some? {
      FindUpsert(s.tools, BY_TOOL_ID, PatchTool(GetTool(s, op.id).value, op.patch, at).(id := op.id), id);
    }
  }

  lemma RequestGate(s: State, op: Op, at: int, id: string)
    requires op.RequestAddress? || op.RequestExposure?
    ensures KeepsGate(s, After(s, op, at), id)
  {
    hide EvaluateGuardianRequest, BuildPublicAddress, NormalizeSubject, WebAddress;
    if GetTool(s, op.id).Some? {
      var tool := GetTool(s, op.id).value;
      if op.RequestAddress? {
        var text := BuildPublicAddress(s.cloudDomain, tool.id, op.kind, op.subject, op.desiredHost);
        FindUpsert(s.tools, BY_TOOL_ID,
          tool.(exposed := true, publicUrl := if op.kind == Website then Some(text) else tool.publicUrl,
                updatedAt := at, id := tool.id), id);
      } else {
        var url := WebAddress(op.desiredHost, tool.id + "." + s.cloudDomain);
        FindUpsert(s.tools, BY_TOOL_ID,
          tool.(exposed := true, publicUrl := Some(url), updatedAt := at, id := tool.id), id);
      }
    }
  }

  lemma AddressRevocationGate(s: State, t: string, only: Option<AddressKind>, at: int, id: string)
    ensures KeepsGate(s, AfterAddressRevocation(s, t, only, at), id)
  {
    hide RevokeAddresses, RevokeUrls, UpdateTool;
    var revoked := s.(
      addresses := RevokeAddresses(s.addresses, t, only, at),
      publicUrls := if exists a :: a in s.addresses && AddressMatches(a, t, only) && a.kind == Website
                    then RevokeUrls(s.publicUrls, t) else s.publicUrls);
    ToolChangeGate(revoked, t, (t: Tool) => t.(exposed := false, publicUrl := None, updatedAt := at), id);
  }

  lemma ExposureRevocationGate(s: State, t: string, at: int, id: string)
    ensures KeepsGate(s, AfterExposureRevocation(s, t, at), id)
  {
    hide RevokeAddresses, RevokeUrls, UpdateTool;
    var revoked := s.(
      exposures := MapWhere(s.exposures, (e: Exposure) => e.toolId == t, (e: Exposure) => RevokeExposureRecord(e, at)),
      publicUrls := RevokeUrls(s.publicUrls, t),
      addresses := RevokeAddresses(s.addresses, t, None, at),
      domains := MapWhere(s.domains, (d: Domain) => d.toolId == t, (d: Domain) => RevokeDomainRecord(d, at)));
    ToolChangeGate(revoked, t, (t: Tool) => t.(exposed := false, updatedAt := at), id);
  }

  /** An operation that neither removes the tool nor patches its flag. */
  ghost predicate LeavesGate(op: Op, id: string) {
    && !(op.Deregister? && op.id == id)
    && !(op.PatchMetadata? && op.id == id && op.patch.requiresAuth.Some?)
  }

  lemma OperationLeavesGate(s: State, op: Op, at: int, id: string)
    requires Consistent(s) && LeavesGate(op, id)
    ensures KeepsGate(s, After(s, op, at), id)
  {
    hide Consistent, KeepsGate, EvaluateGuardianRequest, AfterAddressRequest, AfterExposureRequest,
      AfterAddressRevocation, AfterExposureRevocation, AfterDomainRequest, BuildTool, PatchTool, UpdateTool,
      VerifyDomainRecord, RevokeDomainRecord, GetTool;
    match op
    case Register(input) => RegisterGate(s, input, at, id);
    case Heartbeat(t, upstream, health, phantom) =>
      ToolChangeGate(s, t, (t: Tool) => BeatTool(t, upstream, health, phantom, at), id);
    case Expire(t) =>
      ToolChangeGate(s, t, (t: Tool) => t.(health := Offline, registration := Expired, updatedAt := at), id);
    case PatchMetadata(_, _) => PatchGate(s, op, at, id);
    case Deregister(t) => DeregisterGate(s, t, at, id);
    case SetEnabled(t, enabled) =>
      ToolChangeGate(s, t, (t: Tool) => t.(exposed := enabled, updatedAt := at), id);
    case RequestAddress(_, _, _, _, _) => RequestGate(s, op, at, id);
    case RevokeAddress(t, only) => AddressRevocationGate(s, t, only, at, id);
    case RequestExposure(_, _, _) => RequestGate(s, op, at, id);
    case RevokeExposure(t) => ExposureRevocationGate(s, t, at, id);
    case RequestDomain(_, _, _, _) => DomainRequestGate(s, op, at, id);
    case _ => SameToolsGate(s, After(s, op, at), id);
  }

  /** Whether a tool's proxy asks for authentication changes by a metadata patch that names
      the flag, and by nothing else while the tool stays registered. */
  lemma OnlyPatchesMoveTheGate(s: State, op: Op, at: int, id: string)
    requires Consistent(s)
    requires op.PatchMetadata? && op.id == id ==> op.patch.requiresAuth.None?
    ensures SameGate(s, After(s, op, at), id)
  {
    hide Consistent, After, GetTool;
    if op.Deregister? && op.id == id {
      Deregistered(s, id, at);
    } else {
      OperationLeavesGate(s, op, at, id);
    }
  }

  /** Over a run: a registered tool keeps its flag while nothing patches it and nothing removes
      the tool. */
  lemma {:induction false} GateInRuns(s: State, ops: seq<(Op, int)>, id: string)
    requires Consistent(s) && forall k :: 0 <= k < |ops| ==> LeavesGate(ops[k].0, id)
    ensures KeepsGate(s, Run(s, ops), id)
    decreases |ops|
  {
    hide Consistent, After, GetTool, LeavesGate;
    if ops != [] {
      var last := |ops| - 1;
      GateInRuns(s, ops[..last], id);
      RunConsistent(s, ops[..last]);
      OperationLeavesGate(Run(s, ops[..last]), ops[last].0, ops[last].1, id);
    }
  }

  /** Why removal is excluded: a tool that is removed and registers again has no flag, whatever
      it had before. */
  lemma ReregistrationDropsTheGate(s: State, input: Registering, at: int, later: int)
    requires Consistent(s)
    ensures var tool := GetTool(After(After(s, Deregister(input.id), at), Register(input), later), input.id);
      tool.Some? && tool.value.requiresAuth == None
  {
    hide Upsert, Without;
    Deregistered(s, input.id, at);
    var gone := After(s, Deregister(input.id), at);
    FindUpsert(gone.tools, BY_TOOL_ID, BuildTool(input, None, later), input.id);
  }

  lemma Deregistered(s: State, id: string, at: int)
    requires Consistent(s)
    ensures GetTool(After(s, Deregister(id), at), id).None?
  {
    FindWithout(s.tools, id, id);
  }

  lemma DomainRequestGate(s: State, op: Op, at: int, id: string)
    requires op.RequestDomain?
    ensures KeepsGate(s, After(s, op, at), id)
  {
    hide EvaluateGuardianRequest;
    SameToolsGate(s, After(s, op, at), id);
  }

  lemma DeregisterGate(s: State, t: string, at: int, id: string)
    requires Consistent(s) && t != id
    ensures KeepsGate(s, After(s, Deregister(t), at), id)
  {
    FindWithout(s.tools, t, id);
  }
}
