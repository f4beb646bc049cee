/** The exposure registry: tools, their addresses, public URLs, exposures and domain bindings,
    and the guardian decisions and maintenance windows that the routing table looks at. */
module RegistryState {
  import opened Wrappers
  import opened Text
  import opened Tables

  // ---------- records ----------

  datatype Health = Healthy | Degraded | Offline
  datatype Registration = Registered | Live | Expired
  datatype Phantom = Phantom(claimedSecured: bool, level: string, compliant: bool)

  datatype Tool = Tool(
    id: string, name: string, exposed: bool, health: Health, registration: Registration,
    phantom: Option<Phantom>, publicUrl: Option<string>, upstreamUrl: Option<string>,
    requiresAuth: Option<bool>, heartbeats: nat, updatedAt: int)

  datatype AddressKind = Website | Email | Server | Custom
  datatype AddressStatus = AddressRequested | AddressActive | AddressRevoked

  datatype Address = Address(
    toolId: string, kind: AddressKind, subject: string, publicAddress: string, status: AddressStatus,
    requestedAt: int, activatedAt: Option<int>, revokedAt: Option<int>, updatedAt: int)

  datatype UrlStatus = UrlActive | UrlPending | UrlRevoked

  datatype PublicUrl = PublicUrl(toolId: string, url: string, status: UrlStatus, issuedAt: int, expiresAt: int)

  datatype ExposureStatus =
    ExposureRequested | ExposureActive | ExposureQuarantined | ExposureDenied | ExposureRevoked

  datatype Exposure = Exposure(
    toolId: string, publicUrl: string, status: ExposureStatus,
    requestedAt: int, activatedAt: Option<int>, revokedAt: Option<int>, updatedAt: int)

  datatype DomainStatus = DomainPending | DomainVerified | DomainQuarantined | DomainDenied | DomainRevoked

  datatype Domain = Domain(
    domain: string, toolId: string, publicUrl: string, token: string, status: DomainStatus,
    requestedAt: int, verifiedAt: Option<int>, revokedAt: Option<int>, updatedAt: int)

  datatype Scope = ExposureScope | DomainScope
  datatype Ruling = Cleared | Denied | Suspended | Quarantined

  datatype Decision = Decision(scope: Scope, subjectId: string, toolId: string, status: Ruling)

  datatype Window = Window(subjectId: string, part: string, startedAt: int)

  datatype State = State(
    cloudDomain: string,
    tools: seq<Tool>,
    publicUrls: seq<PublicUrl>,
    addresses: seq<Address>,
    exposures: seq<Exposure>,
    domains: seq<Domain>,
    decisions: seq<Decision>,
    maintenance: seq<Window>)

  // ---------- keys ----------

  const BY_TOOL_ID: Tool -> string := (t: Tool) => t.id
  const BY_URL_TOOL: PublicUrl -> string := (u: PublicUrl) => u.toolId
  const BY_ADDRESS: Address -> (string, AddressKind, string) := (a: Address) => (a.toolId, a.kind, a.subject)
  const BY_EXPOSURE_TOOL: Exposure -> string := (e: Exposure) => e.toolId
  const BY_DOMAIN: Domain -> string := (d: Domain) => d.domain
  const BY_SUBJECT: Decision -> (Scope, string) := (d: Decision) => (d.scope, d.subjectId)
  const BY_PART: Window -> string := (w: Window) => w.subjectId

  function GetTool(s: State, id: string): Option<Tool> {
    Find(s.tools, BY_TOOL_ID, id)
  }

  function KindName(k: AddressKind): string {
    match k case Website => "website" case Email => "email" case Server => "server" case Custom => "custom"
  }

  function AddressSubject(toolId: string, kind: AddressKind): string {
    toolId + ":address:" + KindName(kind)
  }

  function ExposureSubject(toolId: string): string {
    toolId + ":exposure"
  }

  function DomainSubject(toolId: string, domain: string): string {
    toolId + ":domain:" + domain
  }

  // ---------- addresses and their transitions ----------

  function NormalizeSubject(subject: Option<string>, fallback: string): string {
    var trimmed := Trim(subject.GetOr(""));
    Lower(if trimmed == "" then fallback else trimmed)
  }

  function WebAddress(desiredHost: Option<string>, defaultHost: string): string {
    var trimmed := Trim(desiredHost.GetOr(""));
    var host := if trimmed == "" then defaultHost else trimmed;
    if HasScheme(host) then host else "https://" + host
  }

  function BuildPublicAddress(
      cloudDomain: string, toolId: string, kind: AddressKind, subject: Option<string>, desiredHost: Option<string>)
    : string
  {
    var name := NormalizeSubject(subject, toolId);
    match kind
    case Website => WebAddress(desiredHost, name + "." + cloudDomain)
    case Email => name + "@" + cloudDomain
    case _ => "nexus://" + name
  }

  function CreateAddress(
      toolId: string, kind: AddressKind, subject: string, publicAddress: string, status: AddressStatus, at: int)
    : Address
  {
    Address(toolId, kind, subject, publicAddress, status, at,
            if status == AddressActive then Some(at) else None,
            if status == AddressRevoked then Some(at) else None, at)
  }

  function RevokeAddressRecord(a: Address, at: int): Address {
    a.(status := AddressRevoked, revokedAt := Some(at), updatedAt := at)
  }

  function CreateExposure(toolId: string, publicUrl: string, status: ExposureStatus, at: int): Exposure {
    Exposure(toolId, publicUrl, status, at,
             if status == ExposureActive then Some(at) else None,
             if status == ExposureRevoked then Some(at) else None, at)
  }

  function TransitionExposure(e: Exposure, status: ExposureStatus, publicUrl: string, at: int): Exposure {
    e.(publicUrl := publicUrl, status := status,
       activatedAt := if status == ExposureActive then Some(e.activatedAt.GetOr(at)) else e.activatedAt,
       revokedAt := if status == ExposureRevoked then Some(at) else e.revokedAt,
       updatedAt := at)
  }

  function RevokeExposureRecord(e: Exposure, at: int): Exposure {
    TransitionExposure(e, ExposureRevoked, e.publicUrl, at)
  }

  function CreateDomain(
      domain: string, toolId: string, publicUrl: string, token: string, status: DomainStatus, at: int): Domain
  {
    Domain(domain, toolId, publicUrl, token, status, at,
           if status == DomainVerified then Some(at) else None,
           if status == DomainRevoked then Some(at) else None, at)
  }

  function VerifyDomainRecord(d: Domain, token: string, at: int): Option<Domain> {
    if d.token != token then None
    else Some(d.(status := DomainVerified, verifiedAt := Some(at), updatedAt := at))
  }

  function RevokeDomainRecord(d: Domain, at: int): Domain {
    d.(status := DomainRevoked, revokedAt := Some(at), updatedAt := at)
  }

  // ---------- the guardian ----------

  /** What the guardian looks up about hosts: whether the tool's upstream URL has a host name,
      whether that host is local or private, whether a trusted peer answers for it, and
      whether the desired host is refused. */
  datatype HostFacts = HostFacts(hostValid: bool, hostLocal: bool, trustedPeer: bool, desiredRefused: bool)

  function EvaluateGuardianRequest(tool: Option<Tool>, desiredHost: Option<string>, facts: HostFacts): (r: Ruling)
    ensures r == Cleared <==>
      (&& tool.Some? && tool.value.registration != Expired && tool.value.health.Healthy?
       && Trim(tool.value.upstreamUrl.GetOr("")) != "" && facts.hostValid && (facts.hostLocal || facts.trustedPeer)
       && !(desiredHost.GetOr("") != "" && facts.desiredRefused))
    ensures r == Denied <==>
      || tool.None? || tool.value.registration == Expired
      || (tool.value.health == Offline && Trim(tool.value.upstreamUrl.GetOr("")) != "" && facts.hostValid
          && (facts.hostLocal || facts.trustedPeer))
    ensures r != Suspended
  {
    if tool.None? then Denied
    else if tool.value.registration == Expired then Denied
    else if Trim(tool.value.upstreamUrl.GetOr("")) == "" then Quarantined
    else if !facts.hostValid then Quarantined
    else if !facts.hostLocal && !facts.trustedPeer then Quarantined
    else if tool.value.health == Offline then Denied
    else if tool.value.health == Degraded then Quarantined
    else if desiredHost.GetOr("") != "" && facts.desiredRefused then Quarantined
    else Cleared
  }

  function RecordDecision(s: State, d: Decision): State {
    s.(decisions := Upsert(s.decisions, BY_SUBJECT, d))
  }

  predicate Blocked(s: State, scope: Scope, subjectId: string) {
    var d := Find(s.decisions, BY_SUBJECT, (scope, subjectId));
    d.Some? && d.value.status in {Denied, Suspended, Quarantined}
  }

  // ---------- operations ----------

  const THIRTY_DAYS := 1000 * 60 * 60 * 24 * 30

  function UpdateTool(s: State, id: string, change: Tool -> Tool): State {
    var t := GetTool(s, id);
    if t.None? then s else s.(tools := Upsert(s.tools, BY_TOOL_ID, change(t.value).(id := id)))
  }

  datatype Registering = Registering(
    id: string, name: string, exposed: Option<bool>, health: Option<Health>, phantom: Option<Phantom>,
    publicUrl: Option<string>, upstreamUrl: Option<string>)

  function OrElse<T>(a: Option<T>, b: Option<T>): Option<T> {
    if a.Some? then a else b
  }

  function BuildTool(input: Registering, previous: Option<Tool>, at: int): Tool {
    match previous
    case None =>
      Tool(input.id, input.name, input.exposed.GetOr(false), input.health.GetOr(Healthy), Registered,
           input.phantom, input.publicUrl, input.upstreamUrl, None, 0, at)
    case Some(p) =>
      Tool(input.id, input.name, input.exposed.GetOr(p.exposed), input.health.GetOr(p.health), p.registration,
           OrElse(input.phantom, p.phantom), OrElse(input.publicUrl, p.publicUrl),
           OrElse(input.upstreamUrl, p.upstreamUrl), p.requiresAuth, p.heartbeats, at)
  }

  datatype Patch = Patch(
    name: Option<string>, exposed: Option<bool>, health: Option<Health>, phantom: Option<Phantom>,
    upstreamUrl: Option<string>, requiresAuth: Option<bool>)

  function PatchTool(t: Tool, p: Patch, at: int): Tool {
    t.(name := p.name.GetOr(t.name), exposed := p.exposed.GetOr(t.exposed), health := p.health.GetOr(t.health),
       phantom := OrElse(p.phantom, t.phantom), upstreamUrl := OrElse(p.upstreamUrl, t.upstreamUrl),
       requiresAuth := OrElse(p.requiresAuth, t.requiresAuth), updatedAt := at)
  }

  function BeatTool(t: Tool, upstreamUrl: Option<string>, health: Option<Health>, phantom: Option<Phantom>, at: int)
    : Tool
  {
    t.(upstreamUrl := OrElse(upstreamUrl, t.upstreamUrl),
       health := health.GetOr(if t.health == Offline then Healthy else t.health),
       registration := Live, phantom := OrElse(phantom, t.phantom),
       heartbeats := t.heartbeats + 1, updatedAt := at)
  }

  datatype Op =
    | Register(input: Registering)
    | Heartbeat(id: string, upstreamUrl: Option<string>, health: Option<Health>, phantom: Option<Phantom>)
    | Expire(id: string)
    | PatchMetadata(id: string, patch: Patch)
    | Deregister(id: string)
    | SetEnabled(id: string, enabled: bool)
    | RequestAddress(id: string, kind: AddressKind, subject: Option<string>, desiredHost: Option<string>,
                     facts: HostFacts)
    | RevokeAddress(id: string, only: Option<AddressKind>)
    | RequestExposure(id: string, desiredHost: Option<string>, facts: HostFacts)
    | RevokeExposure(id: string)
    | RequestDomain(id: string, domain: string, token: string, facts: HostFacts)
    | VerifyDomain(domain: string, token: string)
    | RevokeDomain(domain: string)
    | Rule(scope: Scope, subjectId: string, status: Ruling)
    | StartMaintenance(window: Window)
    | ClearMaintenance(subjectId: string)

  function ExposureStatusFor(r: Ruling): ExposureStatus {
    match r case Cleared => ExposureActive case Quarantined => ExposureQuarantined case _ => ExposureDenied
  }

  function AfterAddressRequest(
      s: State, tool: Tool, kind: AddressKind, subject: Option<string>, desiredHost: Option<string>,
      ruling: Ruling, at: int): State
  {
    var text := BuildPublicAddress(s.cloudDomain, tool.id, kind, subject, desiredHost);
    var record := CreateAddress(tool.id, kind, NormalizeSubject(subject, tool.id), text,
                                if ruling == Cleared then AddressActive else AddressRequested, at);
    var decided := RecordDecision(s, Decision(ExposureScope, AddressSubject(tool.id, kind), tool.id, ruling));
    var addressed := decided.(addresses := Upsert(s.addresses, BY_ADDRESS, record));
    var exposed :=
      if ruling != Cleared then addressed
      else UpdateTool(addressed, tool.id, (t: Tool) =>
        t.(exposed := true, publicUrl := if kind == Website then Some(text) else t.publicUrl, updatedAt := at));
    if kind != Website then exposed
    else
      var url := PublicUrl(tool.id, text, if ruling == Cleared then UrlActive else UrlPending, at, at + THIRTY_DAYS);
      var existing := Find(s.exposures, BY_EXPOSURE_TOOL, tool.id);
      var exposure := match existing
        case Some(e) => TransitionExposure(e, ExposureStatusFor(ruling), text, at)
        case None => CreateExposure(tool.id, text, ExposureStatusFor(ruling), at);
      exposed.(publicUrls := Upsert(s.publicUrls, BY_URL_TOOL, url),
               exposures := Upsert(s.exposures, BY_EXPOSURE_TOOL, exposure))
  }

  predicate AddressMatches(a: Address, id: string, only: Option<AddressKind>) {
    a.toolId == id && (only.None? || a.kind == only.value)
  }

  function RevokeUrls(urls: seq<PublicUrl>, id: string): seq<PublicUrl> {
    MapWhere(urls, (u: PublicUrl) => u.toolId == id, (u: PublicUrl) => u.(status := UrlRevoked))
  }

  function RevokeAddresses(addresses: seq<Address>, id: string, only: Option<AddressKind>, at: int): seq<Address> {
    MapWhere(addresses, (a: Address) => AddressMatches(a, id, only), (a: Address) => RevokeAddressRecord(a, at))
  }

  function AfterAddressRevocation(s: State, id: string, only: Option<AddressKind>, at: int): State {
    if forall a :: a in s.addresses ==> !AddressMatches(a, id, only) then s
    else
      var addresses := RevokeAddresses(s.addresses, id, only, at);
      var revoked := s.(
        addresses := addresses,
        publicUrls := if exists a :: a in s.addresses && AddressMatches(a, id, only) && a.kind == Website
                      then RevokeUrls(s.publicUrls, id) else s.publicUrls);
      if exists a :: a in addresses && a.toolId == id && a.status == AddressActive then revoked
      else UpdateTool(revoked, id, (t: Tool) => t.(exposed := false, publicUrl := None, updatedAt := at))
  }

  function AfterExposureRequest(s: State, tool: Tool, desiredHost: Option<string>, ruling: Ruling, at: int): State {
    var url := WebAddress(desiredHost, tool.id + "." + s.cloudDomain);
    var record := TransitionExposure(CreateExposure(tool.id, url, ExposureRequested, at),
                                     ExposureStatusFor(ruling), url, at);
    var decided := RecordDecision(s, Decision(ExposureScope, ExposureSubject(tool.id), tool.id, ruling));
    var requested := decided.(exposures := Upsert(s.exposures, BY_EXPOSURE_TOOL, record));
    if ruling != Cleared then requested
    else UpdateTool(requested, tool.id, (t: Tool) => t.(exposed := true, publicUrl := Some(url), updatedAt := at))
  }

  function AfterExposureRevocation(s: State, id: string, at: int): State {
    if Find(s.exposures, BY_EXPOSURE_TOOL, id).None? then s
    else
      UpdateTool(
        s.(exposures := MapWhere(s.exposures, (e: Exposure) => e.toolId == id,
                                 (e: Exposure) => RevokeExposureRecord(e, at)),
           publicUrls := RevokeUrls(s.publicUrls, id),
           addresses := RevokeAddresses(s.addresses, id, None, at),
           domains := MapWhere(s.domains, (d: Domain) => d.toolId == id, (d: Domain) => RevokeDomainRecord(d, at))),
        id, (t: Tool) => t.(exposed := false, updatedAt := at))
  }

  function AfterDomainRequest(s: State, id: string, domain: string, token: string, facts: HostFacts, at: int): State {
    var url := Find(s.publicUrls, BY_URL_TOOL, id);
    if url.None? || url.value.status != UrlActive then s
    else
      var ruling := EvaluateGuardianRequest(GetTool(s, id), Some(domain), facts);
      var existing := Find(s.domains, BY_DOMAIN, domain);
      var status := match ruling
        case Cleared => (match existing case Some(d) => d.status case None => DomainPending)
        case Quarantined => DomainQuarantined
        case _ => DomainDenied;
      RecordDecision(s, Decision(DomainScope, DomainSubject(id, domain), id, ruling))
        .(domains := Upsert(s.domains, BY_DOMAIN, CreateDomain(domain, id, url.value.url, token, status, at)))
  }

  function After(s: State, op: Op, at: int): State {
    match op
    case Register(input) =>
      s.(tools := Upsert(s.tools, BY_TOOL_ID, BuildTool(input, GetTool(s, input.id), at)))
    case Heartbeat(id, upstream, health, phantom) =>
      UpdateTool(s, id, (t: Tool) => BeatTool(t, upstream, health, phantom, at))
    case Expire(id) =>
      UpdateTool(s, id, (t: Tool) => t.(health := Offline, registration := Expired, updatedAt := at))
    case PatchMetadata(id, patch) => UpdateTool(s, id, (t: Tool) => PatchTool(t, patch, at))
    case Deregister(id) => s.(tools := Without(s.tools, id))
    case SetEnabled(id, enabled) => UpdateTool(s, id, (t: Tool) => t.(exposed := enabled, updatedAt := at))
    case RequestAddress(id, kind, subject, host, facts) =>
      (match GetTool(s, id)
       case None => s
       case Some(tool) =>
         AfterAddressRequest(s, tool, kind, subject, host, EvaluateGuardianRequest(Some(tool), host, facts), at))
    case RevokeAddress(id, only) => AfterAddressRevocation(s, id, only, at)
    case RequestExposure(id, host, facts) =>
      (match GetTool(s, id)
       case None => s
       case Some(tool) =>
         AfterExposureRequest(s, tool, host, EvaluateGuardianRequest(Some(tool), host, facts), at))
    case RevokeExposure(id) => AfterExposureRevocation(s, id, at)
    case RequestDomain(id, domain, token, facts) => AfterDomainRequest(s, id, domain, token, facts, at)
    case VerifyDomain(domain, token) =>
      (match Find(s.domains, BY_DOMAIN, domain)
       case None => s
       case Some(d) =>
         var verified := VerifyDomainRecord(d, token, at);
         if verified.None? then s else s.(domains := Upsert(s.domains, BY_DOMAIN, verified.value)))
    case RevokeDomain(domain) =>
      (match Find(s.domains, BY_DOMAIN, domain)
       case None => s
       case Some(d) => s.(domains := Upsert(s.domains, BY_DOMAIN, RevokeDomainRecord(d, at))))
    case Rule(scope, subject, status) =>
      (match Find(s.decisions, BY_SUBJECT, (scope, subject))
       case None => s
       case Some(d) => RecordDecision(s, d.(status := status)))
    case StartMaintenance(w) =>
      var existing := Find(s.maintenance, BY_PART, w.subjectId);
      s.(maintenance := Upsert(s.maintenance, BY_PART,
                               if existing.Some? then w.(startedAt := existing.value.startedAt) else w))
    case ClearMaintenance(subject) => s.(maintenance := WithoutWindow(s.maintenance, subject))
  }

  /** Removing the first tool with an id. */
  function Without(tools: seq<Tool>, id: string): seq<Tool> {
    if tools == [] then [] else if tools[0].id == id then tools[1..] else [tools[0]] + Without(tools[1..], id)
  }

  function WithoutWindow(ws: seq<Window>, subjectId: string): seq<Window> {
    if ws == [] then [] else if ws[0].subjectId == subjectId then ws[1..]
    else [ws[0]] + WithoutWindow(ws[1..], subjectId)
  }
}
