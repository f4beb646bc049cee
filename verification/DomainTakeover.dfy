/** A run in which a verified domain passes to another tool without anyone presenting a token. */
module DomainTakeover {
  import opened Wrappers
  import opened Text
  import opened Tables
  import opened RegistryState
  import opened RegistryLaws
  import opened RegistryGrants

  /** A tool the guardian clears, given hosts it does not mind. */
  predicate Ready(s: State, id: string) {
    var t := GetTool(s, id);
    t.Some? && t.value.registration != Expired && t.value.health == Healthy
    && Trim(t.value.upstreamUrl.GetOr("")) != ""
  }

  predicate HasUrl(s: State, id: string) {
    var u := Find(s.publicUrls, BY_URL_TOOL, id);
    u.Some? && u.value.status == UrlActive
  }

  predicate Harmless(facts: HostFacts) {
    facts.hostValid && facts.hostLocal && !facts.desiredRefused
  }

  predicate Sound(input: Registering) {
    input.health.GetOr(Healthy) == Healthy && Trim(input.upstreamUrl.GetOr("")) != ""
  }

  lemma Registers(s: State, input: Registering, at: int)
    requires GetTool(s, input.id).None? && Sound(input)
    ensures var n := After(s, Register(input), at);
      && Ready(n, input.id) && n.domains == s.domains && n.publicUrls == s.publicUrls
      && forall id :: id != input.id ==> GetTool(n, id) == GetTool(s, id)
  {
    hide Trim, Upsert;
    var tool := BuildTool(input, None, at);
    forall id
      ensures GetTool(After(s, Register(input), at), id) == if id == input.id then Some(tool) else GetTool(s, id)
    {
      FindUpsert(s.tools, BY_TOOL_ID, tool, id);
    }
  }

  lemma GetsWebsite(s: State, id: string, facts: HostFacts, at: int)
    requires Ready(s, id) && Harmless(facts)
    ensures var n := After(s, RequestAddress(id, Website, None, None, facts), at);
      && Ready(n, id) && HasUrl(n, id) && n.domains == s.domains
      && forall x :: x != id ==> GetTool(n, x) == GetTool(s, x) && HasUrl(n, x) == HasUrl(s, x)
  {
    hide Trim, Upsert, BuildPublicAddress, NormalizeSubject;
    var tool := GetTool(s, id).value;
    var text := BuildPublicAddress(s.cloudDomain, id, Website, None, None);
    var granted := tool.(exposed := true, publicUrl := Some(text), updatedAt := at, id := id);
    var url := PublicUrl(id, text, UrlActive, at, at + THIRTY_DAYS);
    var n := After(s, RequestAddress(id, Website, None, None, facts), at);
    assert EvaluateGuardianRequest(Some(tool), None, facts) == Cleared;
    assert n.tools == Upsert(s.tools, BY_TOOL_ID, granted) && n.publicUrls == Upsert(s.publicUrls, BY_URL_TOOL, url);
    forall x ensures GetTool(n, x) == if x == id then Some(granted) else GetTool(s, x) {
      FindUpsert(s.tools, BY_TOOL_ID, granted, x);
    }
    forall x ensures HasUrl(n, x) == if x == id then true else HasUrl(s, x) {
      FindUpsert(s.publicUrls, BY_URL_TOOL, url, x);
    }
  }

  lemma Binds(s: State, id: string, domain: string, token: string, facts: HostFacts, at: int)
    requires Ready(s, id) && HasUrl(s, id) && Harmless(facts)
    ensures var n := After(s, RequestDomain(id, domain, token, facts), at);
      var was, d := Find(s.domains, BY_DOMAIN, domain), Find(n.domains, BY_DOMAIN, domain);
      && n.tools == s.tools && n.publicUrls == s.publicUrls
      && d.Some? && d.value.toolId == id && d.value.token == token
      && d.value.status == if was.Some? then was.value.status else DomainPending
  {
    hide Trim, Upsert;
    var was := Find(s.domains, BY_DOMAIN, domain);
    var url := Find(s.publicUrls, BY_URL_TOOL, id).value.url;
    assert EvaluateGuardianRequest(GetTool(s, id), Some(domain), facts) == Cleared;
    FindUpsert(s.domains, BY_DOMAIN,
               CreateDomain(domain, id, url, token, if was.Some? then was.value.status else DomainPending, at), domain);
  }

  lemma Verifies(s: State, domain: string, token: string, at: int)
    requires Find(s.domains, BY_DOMAIN, domain).Some? && Find(s.domains, BY_DOMAIN, domain).value.token == token
    ensures var n := After(s, VerifyDomain(domain, token), at);
      var was, d := Find(s.domains, BY_DOMAIN, domain), Find(n.domains, BY_DOMAIN, domain);
      && n.tools == s.tools && n.publicUrls == s.publicUrls
      && d.Some? && d.value.toolId == was.value.toolId && d.value.status == DomainVerified
  {
    hide Upsert;
    var d := Find(s.domains, BY_DOMAIN, domain).value;
    FindUpsert(s.domains, BY_DOMAIN, VerifyDomainRecord(d, token, at).value, domain);
  }

  /** One tool registers, gets a website, binds a domain and verifies it; another registers, gets
      a website and requests the domain. */
  function TakeoverRun(
      owner: Registering, other: Registering, domain: string, token: string, newToken: string, facts: HostFacts,
      at: int)
    : seq<(Op, int)>
  {
    [(Register(owner), at), (RequestAddress(owner.id, Website, None, None, facts), at),
     (RequestDomain(owner.id, domain, token, facts), at), (VerifyDomain(domain, token), at),
     (Register(other), at), (RequestAddress(other.id, Website, None, None, facts), at),
     (RequestDomain(other.id, domain, newToken, facts), at)]
  }

  lemma RunNext(s: State, ops: seq<(Op, int)>, k: nat)
    requires k < |ops|
    ensures Run(s, ops[..k + 1]) == After(Run(s, ops[..k]), ops[k].0, ops[k].1)
  {
    assert ops[..k + 1][..k] == ops[..k];
  }

  /** After four steps the domain is the first tool's, verified; after seven it is the other's,
      verified all the same, though its token was never presented. */
  lemma VerifiedDomainChangesHands(
      cloudDomain: string, owner: Registering, other: Registering, domain: string, token: string, newToken: string,
      facts: HostFacts, at: int)
    requires owner.id != other.id && Sound(owner) && Sound(other) && Harmless(facts)
    ensures var ops := TakeoverRun(owner, other, domain, token, newToken, facts, at);
      var before := Find(Run(Empty(cloudDomain), ops[..4]).domains, BY_DOMAIN, domain);
      var after := Find(Run(Empty(cloudDomain), ops).domains, BY_DOMAIN, domain);
      && before.Some? && before.value.toolId == owner.id && before.value.status == DomainVerified
      && after.Some? && after.value.toolId == other.id && after.value.status == DomainVerified
      && after.value.token == newToken
      && !NoneHandedOver(Empty(cloudDomain), ops)
  {
    hide Run, After, Ready, HasUrl, Harmless, Sound, HandsOver, Find, NoneHandedOver;
    var start := Empty(cloudDomain);
    var ops := TakeoverRun(owner, other, domain, token, newToken, facts, at);
    forall k: nat | k < 7 ensures Run(start, ops[..k + 1]) == After(Run(start, ops[..k]), ops[k].0, ops[k].1) {
      RunNext(start, ops, k);
    }
    Begins(cloudDomain, ops);
    var s1, s2, s3 := Run(start, ops[..1]), Run(start, ops[..2]), Run(start, ops[..3]);
    var s4, s5, s6 := Run(start, ops[..4]), Run(start, ops[..5]), Run(start, ops[..6]);
    Registers(start, owner, at);
    GetsWebsite(s1, owner.id, facts, at);
    Binds(s2, owner.id, domain, token, facts, at);
    Verifies(s3, domain, token, at);
    assert GetTool(s4, other.id) == GetTool(s2, other.id) == GetTool(s1, other.id) == GetTool(start, other.id);
    Registers(s4, other, at);
    GetsWebsite(s5, other.id, facts, at);
    Binds(s6, other.id, domain, newToken, facts, at);
    assert ops[..7] == ops;
    var bound := Find(s6.domains, BY_DOMAIN, domain).value;
    IsHandedOver(s6, other.id, domain, newToken, facts, bound);
    SomeHandedOver(start, ops, 6, bound);
  }

  lemma SomeHandedOver(s: State, ops: seq<(Op, int)>, k: nat, d: Domain)
    requires k < |ops| && d in Run(s, ops[..k]).domains && HandsOver(Run(s, ops[..k]), ops[k].0, d)
    ensures !NoneHandedOver(s, ops)
  {
    hide Run, HandsOver;
  }

  lemma Begins(cloudDomain: string, ops: seq<(Op, int)>)
    ensures Run(Empty(cloudDomain), ops[..0]) == Empty(cloudDomain)
    ensures forall id :: GetTool(Empty(cloudDomain), id).None?
  {
  }

  lemma IsHandedOver(s: State, id: string, domain: string, token: string, facts: HostFacts, bound: Domain)
    requires Ready(s, id) && HasUrl(s, id) && Harmless(facts)
    requires Find(s.domains, BY_DOMAIN, domain) == Some(bound) && bound.status == DomainVerified && bound.toolId != id
    ensures HandsOver(s, RequestDomain(id, domain, token, facts), bound) && bound in s.domains
  {
    hide Trim;
  }
}
