/** Catalog proposals and approvals: the controlled vocabularies, the validators that turn
    untrusted JSON into records, and the JSON the records are saved as. */
module CatalogRecords {
  import opened Wrappers
  import opened Text

  /** A JSON value. `JText(j)` is a string too: the rendering of `j`. */
  datatype Json =
    | JNull
    | JBool(flag: bool)
    | JNumber(number: real)
    | JString(text: string)
    | JText(rendered: Json)
    | JArray(items: seq<Json>)
    | JObject(fields: map<string, Json>)

  const SHELVES := ["everyday", "work", "create", "develop", "operate", "personal", "explore"]
  const AUDIENCES := ["general", "business", "creator", "developer", "operations", "power-user"]
  const MATURITIES := ["stable", "preview", "experimental"]
  const VISIBILITIES := ["default", "discoverable", "restricted", "hidden"]
  const SURFACES := ["user-app", "developer-tool", "admin-console", "platform-service"]
  const RELEASE_STATES := ["staged", "released", "retired"]

  datatype CatalogProposal = CatalogProposal(
    suggestedShelves: seq<string>,
    suggestedAudiences: seq<string>,
    capabilities: seq<string>,
    keywords: seq<string>,
    submittedAt: string,
    version: nat)

  datatype ApprovedCatalog = ApprovedCatalog(
    primaryShelf: string,
    secondaryShelves: seq<string>,
    audiences: seq<string>,
    capabilities: seq<string>,
    maturity: string,
    visibility: string,
    surface: string,
    releaseState: string,
    approvedAt: string,
    approvedBy: string,
    version: nat)

  // ---------- timestamps ----------

  predicate AreDigits(s: string) {
    forall i :: 0 <= i < |s| ==> '0' <= s[i] <= '9'
  }

  function Number(s: string): nat
    requires AreDigits(s)
  {
    if s == [] then 0 else Number(s[..|s| - 1]) * 10 + (s[|s| - 1] as int - '0' as int)
  }

  function DaysIn(year: nat, month: nat): nat {
    if month == 2 then (if year % 4 == 0 && (year % 100 != 0 || year % 400 == 0) then 29 else 28)
    else if month in {4, 6, 9, 11} then 30
    else 31
  }

  /** `YYYY-MM-DDTHH:MM:SS.mmmZ` naming an instant that prints back as itself. */
  predicate IsTimestampText(s: string) {
    && |s| == 24
    && s[4] == '-' && s[7] == '-' && s[10] == 'T' && s[13] == ':' && s[16] == ':' && s[19] == '.' && s[23] == 'Z'
    && AreDigits(s[0..4]) && AreDigits(s[5..7]) && AreDigits(s[8..10])
    && AreDigits(s[11..13]) && AreDigits(s[14..16]) && AreDigits(s[17..19]) && AreDigits(s[20..23])
    && 1 <= Number(s[5..7]) <= 12
    && 1 <= Number(s[8..10]) <= DaysIn(Number(s[0..4]), Number(s[5..7]))
    && Number(s[11..13]) < 24 && Number(s[14..16]) < 60 && Number(s[17..19]) < 60
  }

  // ---------- validators ----------

  function Field(value: Json, name: string): Option<Json> {
    if value.JObject? && name in value.fields then Some(value.fields[name]) else None
  }

  function AsString(value: Option<Json>): Option<string> {
    match value case Some(JString(s)) => Some(s) case _ => None
  }

  function OneOf(value: Option<Json>, allowed: seq<string>): Option<string> {
    match AsString(value) case Some(s) => (if s in allowed then Some(s) else None) case None => None
  }

  predicate Distinct<T(==)>(s: seq<T>) {
    forall i, j :: 0 <= i < j < |s| ==> s[i] != s[j]
  }

  /** The items of an array all of whose items are strings. */
  function Strings(items: seq<Json>): (r: Option<seq<string>>)
    ensures r.Some? <==> forall i :: 0 <= i < |items| ==> items[i].JString?
    ensures r.Some? ==> |r.value| == |items| && forall i :: 0 <= i < |items| ==> items[i] == JString(r.value[i])
  {
    if items == [] then Some([])
    else
      match (items[0], Strings(items[1..]))
      case (JString(s), Some(rest)) => Some([s] + rest)
      case _ => None
  }

  function StringsOf(value: Option<Json>): Option<seq<string>> {
    match value case Some(JArray(items)) => Strings(items) case _ => None
  }

  predicate Controlled(s: seq<string>, allowed: seq<string>) {
    (forall i :: 0 <= i < |s| ==> s[i] in allowed) && Distinct(s)
  }

  function ControlledArray(value: Option<Json>, allowed: seq<string>, requireNonEmpty: bool)
    : Option<seq<string>>
  {
    match StringsOf(value)
    case Some(s) => if (requireNonEmpty ==> s != []) && Controlled(s, allowed) then Some(s) else None
    case None => None
  }

  predicate Clean(s: seq<string>) {
    (forall i :: 0 <= i < |s| ==> s[i] != []) && Distinct(s)
  }

  function StringArray(value: Option<Json>): Option<seq<string>> {
    match StringsOf(value)
    case Some(s) =>
      var trimmed := seq(|s|, (i: nat) requires i < |s| => Trim(s[i]));
      if Clean(trimmed) then Some(trimmed) else None
    case None => None
  }

  function Timestamp(value: Option<Json>): Option<string> {
    match AsString(value) case Some(s) => (if IsTimestampText(s) then Some(s) else None) case None => None
  }

  const MAX_SAFE_INTEGER := 0x1F_FFFF_FFFF_FFFF

  function Version(value: Option<Json>): Option<nat> {
    match value
    case Some(JNumber(n)) =>
      if n.Floor as real == n && 0 < n.Floor <= MAX_SAFE_INTEGER then Some(n.Floor) else None
    case _ => None
  }

  /** Every field must have passed its own check. */
  function ProposalOf(
      shelves: Option<seq<string>>, audiences: Option<seq<string>>, capabilities: Option<seq<string>>,
      keywords: Option<seq<string>>, submittedAt: Option<string>, version: Option<nat>): Option<CatalogProposal>
  {
    if shelves.None? || audiences.None? || capabilities.None? || keywords.None?
       || submittedAt.None? || version.None? then None
    else Some(CatalogProposal(shelves.value, audiences.value, capabilities.value, keywords.value,
                              submittedAt.value, version.value))
  }

  function ValidateCatalogProposal(value: Json): Option<CatalogProposal> {
    ProposalOf(
      ControlledArray(Field(value, "suggestedShelves"), SHELVES, true),
      ControlledArray(Field(value, "suggestedAudiences"), AUDIENCES, false),
      StringArray(Field(value, "capabilities")),
      StringArray(Field(value, "keywords")),
      Timestamp(Field(value, "submittedAt")),
      Version(Field(value, "version")))
  }

  function Approver(value: Option<Json>): Option<string> {
    match AsString(value)
    case Some(s) => if Trim(s) != [] && s == Trim(s) then Some(s) else None
    case None => None
  }

  function ApprovalOf(
      primary: Option<string>, secondary: Option<seq<string>>, audiences: Option<seq<string>>,
      capabilities: Option<seq<string>>, maturity: Option<string>, visibility: Option<string>,
      surface: Option<string>, release: Option<string>, approvedAt: Option<string>,
      approvedBy: Option<string>, version: Option<nat>): Option<ApprovedCatalog>
  {
    if primary.None? || maturity.None? || visibility.None? || surface.None? || release.None?
       || approvedAt.None? || approvedBy.None? || version.None?
       || secondary.None? || primary.value in secondary.value || audiences.None? || capabilities.None? then None
    else Some(ApprovedCatalog(primary.value, secondary.value, audiences.value, capabilities.value,
                              maturity.value, visibility.value, surface.value, release.value,
                              approvedAt.value, approvedBy.value, version.value))
  }

  function ValidateApprovedCatalog(value: Json): Option<ApprovedCatalog> {
    ApprovalOf(
      OneOf(Field(value, "primaryShelf"), SHELVES),
      ControlledArray(Field(value, "secondaryShelves"), SHELVES, false),
      ControlledArray(Field(value, "audiences"), AUDIENCES, false),
      StringArray(Field(value, "capabilities")),
      OneOf(Field(value, "maturity"), MATURITIES),
      OneOf(Field(value, "visibility"), VISIBILITIES),
      OneOf(Field(value, "surface"), SURFACES),
      OneOf(Field(value, "releaseState"), RELEASE_STATES),
      Timestamp(Field(value, "approvedAt")),
      Approver(Field(value, "approvedBy")),
      Version(Field(value, "version")))
  }

  // ---------- what validation establishes ----------

  predicate Trimmed(s: seq<string>) {
    Clean(s) && forall i :: 0 <= i < |s| ==> Trim(s[i]) == s[i]
  }

  predicate SafeVersion(v: nat) {
    0 < v <= MAX_SAFE_INTEGER
  }

  predicate ValidProposal(p: CatalogProposal) {
    && p.suggestedShelves != [] && Controlled(p.suggestedShelves, SHELVES)
    && Controlled(p.suggestedAudiences, AUDIENCES)
    && Trimmed(p.capabilities) && Trimmed(p.keywords)
    && IsTimestampText(p.submittedAt) && SafeVersion(p.version)
  }

  predicate ValidApproval(a: ApprovedCatalog) {
    && a.primaryShelf in SHELVES && a.maturity in MATURITIES && a.visibility in VISIBILITIES
    && a.surface in SURFACES && a.releaseState in RELEASE_STATES
    && IsTimestampText(a.approvedAt) && a.approvedBy != [] && Trim(a.approvedBy) == a.approvedBy
    && SafeVersion(a.version)
    && Controlled(a.secondaryShelves, SHELVES) && a.primaryShelf !in a.secondaryShelves
    && Controlled(a.audiences, AUDIENCES) && Trimmed(a.capabilities)
  }

  function JStrings(s: seq<string>): Json {
    JArray(seq(|s|, (i: nat) requires i < |s| => JString(s[i])))
  }

  function EncodeProposal(p: CatalogProposal): Json {
    JObject(map[
      "suggestedShelves" := JStrings(p.suggestedShelves),
      "suggestedAudiences" := JStrings(p.suggestedAudiences),
      "capabilities" := JStrings(p.capabilities),
      "keywords" := JStrings(p.keywords),
      "submittedAt" := JString(p.submittedAt),
      "version" := JNumber(p.version as real)])
  }

  function EncodeApproval(a: ApprovedCatalog): Json {
    JObject(map[
      "primaryShelf" := JString(a.primaryShelf),
      "secondaryShelves" := JStrings(a.secondaryShelves),
      "audiences" := JStrings(a.audiences),
      "capabilities" := JStrings(a.capabilities),
      "maturity" := JString(a.maturity),
      "visibility" := JString(a.visibility),
      "surface" := JString(a.surface),
      "releaseState" := JString(a.releaseState),
      "approvedAt" := JString(a.approvedAt),
      "approvedBy" := JString(a.approvedBy),
      "version" := JNumber(a.version as real)])
  }

  lemma StringsOfEncoded(s: seq<string>)
    ensures StringsOf(Some(JStrings(s))) == Some(s)
  {
    var r := Strings(JStrings(s).items);
    assert r.Some?;
    assert r.value == s;
  }

  lemma StringArrayTrimmed(value: Option<Json>)
    ensures StringArray(value).Some? ==> Trimmed(StringArray(value).value)
  {
    if StringArray(value).Some? {
      var s := StringsOf(value).value;
      forall i | 0 <= i < |s| ensures Trim(Trim(s[i])) == Trim(s[i]) {
        TrimIdempotent(s[i]);
      }
    }
  }

  lemma StringArrayOfTrimmed(s: seq<string>)
    requires Trimmed(s)
    ensures StringArray(Some(JStrings(s))) == Some(s)
  {
    StringsOfEncoded(s);
    assert seq(|s|, (i: nat) requires i < |s| => Trim(s[i])) == s;
  }

  lemma VersionOfEncoded(v: nat)
    requires SafeVersion(v)
    ensures Version(Some(JNumber(v as real))) == Some(v)
  {
  }

  /** Whatever passes validation is normalized. */
  lemma ValidatedProposalIsValid(value: Json)
    ensures ValidateCatalogProposal(value).Some? ==> ValidProposal(ValidateCatalogProposal(value).value)
  {
    StringArrayTrimmed(Field(value, "capabilities"));
    StringArrayTrimmed(Field(value, "keywords"));
  }

  lemma ValidatedApprovalIsValid(value: Json)
    ensures ValidateApprovedCatalog(value).Some? ==> ValidApproval(ValidateApprovedCatalog(value).value)
  {
    StringArrayTrimmed(Field(value, "capabilities"));
  }

  ghost predicate SpellsProposal(j: Json, p: CatalogProposal) {
    && Field(j, "suggestedShelves") == Some(JStrings(p.suggestedShelves))
    && Field(j, "suggestedAudiences") == Some(JStrings(p.suggestedAudiences))
    && Field(j, "capabilities") == Some(JStrings(p.capabilities))
    && Field(j, "keywords") == Some(JStrings(p.keywords))
    && Field(j, "submittedAt") == Some(JString(p.submittedAt))
    && Field(j, "version") == Some(JNumber(p.version as real))
  }

  lemma ProposalFields(p: CatalogProposal)
    ensures SpellsProposal(EncodeProposal(p), p)
  {
  }

  ghost predicate SpellsApproval(j: Json, a: ApprovedCatalog) {
    && Field(j, "primaryShelf") == Some(JString(a.primaryShelf))
    && Field(j, "secondaryShelves") == Some(JStrings(a.secondaryShelves))
    && Field(j, "audiences") == Some(JStrings(a.audiences))
    && Field(j, "capabilities") == Some(JStrings(a.capabilities))
    && Field(j, "maturity") == Some(JString(a.maturity))
    && Field(j, "visibility") == Some(JString(a.visibility))
    && Field(j, "surface") == Some(JString(a.surface))
    && Field(j, "releaseState") == Some(JString(a.releaseState))
    && Field(j, "approvedAt") == Some(JString(a.approvedAt))
    && Field(j, "approvedBy") == Some(JString(a.approvedBy))
    && Field(j, "version") == Some(JNumber(a.version as real))
  }

  lemma ApprovalFields(a: ApprovedCatalog)
    ensures SpellsApproval(EncodeApproval(a), a)
  {
  }

  /** A proposal survives being saved and validated again exactly when it is normalized. */
  lemma ProposalRoundTrip(p: CatalogProposal)
    ensures ValidateCatalogProposal(EncodeProposal(p)) == Some(p) <==> ValidProposal(p)
  {
    ValidatedProposalIsValid(EncodeProposal(p));
    if ValidProposal(p) {
      ProposalFields(p);
      SpelledProposalSurvives(EncodeProposal(p), p);
    }
  }

  lemma SpelledProposalSurvives(j: Json, p: CatalogProposal)
    requires ValidProposal(p) && SpellsProposal(j, p)
    ensures ValidateCatalogProposal(j) == Some(p)
  {
    StringsOfEncoded(p.suggestedShelves);
    ControlledEncoded(p.suggestedAudiences, AUDIENCES);
    StringArrayOfTrimmed(p.capabilities);
    StringArrayOfTrimmed(p.keywords);
    VersionOfEncoded(p.version);
  }

  lemma OneOfEncoded(s: string, allowed: seq<string>)
    requires s in allowed
    ensures OneOf(Some(JString(s)), allowed) == Some(s)
  {
  }

  lemma ControlledEncoded(s: seq<string>, allowed: seq<string>)
    requires Controlled(s, allowed)
    ensures ControlledArray(Some(JStrings(s)), allowed, false) == Some(s)
  {
    StringsOfEncoded(s);
  }

  lemma ApprovalRoundTrip(a: ApprovedCatalog)
    ensures ValidateApprovedCatalog(EncodeApproval(a)) == Some(a) <==> ValidApproval(a)
  {
    ValidatedApprovalIsValid(EncodeApproval(a));
    if ValidApproval(a) {
      ApprovalFields(a);
      SpelledApprovalSurvives(EncodeApproval(a), a);
    }
  }

  lemma SpelledApprovalSurvives(j: Json, a: ApprovedCatalog)
    requires ValidApproval(a) && SpellsApproval(j, a)
    ensures ValidateApprovedCatalog(j) == Some(a)
  {
    OneOfEncoded(a.primaryShelf, SHELVES);
    OneOfEncoded(a.maturity, MATURITIES);
    OneOfEncoded(a.visibility, VISIBILITIES);
    OneOfEncoded(a.surface, SURFACES);
    OneOfEncoded(a.releaseState, RELEASE_STATES);
    ControlledEncoded(a.secondaryShelves, SHELVES);
    ControlledEncoded(a.audiences, AUDIENCES);
    StringArrayOfTrimmed(a.capabilities);
    VersionOfEncoded(a.version);
  }

  /** Both validators are idempotent: validating what a validator returned changes nothing. */
  lemma ValidationIdempotent(value: Json)
    ensures match ValidateCatalogProposal(value)
      case Some(p) => ValidateCatalogProposal(EncodeProposal(p)) == Some(p)
      case None => true
    ensures match ValidateApprovedCatalog(value)
      case Some(a) => ValidateApprovedCatalog(EncodeApproval(a)) == Some(a)
      case None => true
  {
    ValidatedProposalIsValid(value);
    ValidatedApprovalIsValid(value);
    if ValidateCatalogProposal(value).Some? {
      ProposalRoundTrip(ValidateCatalogProposal(value).value);
    }
    if ValidateApprovedCatalog(value).Some? {
      ApprovalRoundTrip(ValidateApprovedCatalog(value).value);
    }
  }
}
