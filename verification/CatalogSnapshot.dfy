/** The catalog as saved and as loaded: the JSON it is written as, and the sanitizer that
    reads it back. */
module CatalogSnapshot {
  import opened Wrappers
  import opened CatalogRecords
  import opened CatalogState
  import CatalogLaws

  /** A catalog read from disk. Ledger entries are filtered, not rebuilt: they stay JSON. */
  datatype LoadedCatalog = LoadedCatalog(
    proposals: map<string, CatalogProposal>,
    approved: map<string, ApprovedCatalog>,
    seedVersion: Option<nat>,
    reviews: map<string, ReviewStatus>,
    history: map<string, seq<Option<ApprovedCatalog>>>,
    ledger: seq<Json>)

  // ---------- sanitizing ----------

  function ParseReview(value: Json): Option<ReviewStatus> {
    if value == JString("approved") then Some(Approved)
    else if value == JString("pending") then Some(Pending)
    else if value == JString("deferred") then Some(Deferred)
    else if value == JString("rejected") then Some(Rejected)
    else None
  }

  function ParseEntry(value: Json): Option<Option<ApprovedCatalog>> {
    if value == JNull then Some(None)
    else
      var a := ValidateApprovedCatalog(value);
      if a.Some? then Some(a) else None
  }

  /** An approval stack with any invalid entry is dropped whole. */
  function ParseStack(value: Json): Option<seq<Option<ApprovedCatalog>>> {
    if value.JArray? && forall i :: 0 <= i < |value.items| ==> ParseEntry(value.items[i]).Some?
    then Some(seq(|value.items|, (i: nat) requires i < |value.items| => ParseEntry(value.items[i]).value))
    else None
  }

  /** The entries of an object that have a name and parse. */
  function Kept<V>(value: Option<Json>, parse: Json -> Option<V>): map<string, V> {
    match value
    case Some(JObject(fields)) =>
      map t | t in fields && t != "" && parse(fields[t]).Some? :: parse(fields[t]).value
    case _ => map[]
  }

  predicate IsText(value: Option<Json>) {
    value.Some? && (value.value.JString? || value.value.JText?)
  }

  predicate IsLedgerEntry(e: Json) {
    var metadata := Field(e, "metadata");
    && Field(e, "kind") == Some(JString("audit")) && Field(e, "source") == Some(JString("systems-api"))
    && IsText(Field(e, "subjectId")) && IsText(Field(e, "timestamp"))
    && metadata.Some? && Field(metadata.value, "eventType") == Some(JString("catalog-approval"))
    && IsText(Field(metadata.value, "actor")) && IsText(Field(metadata.value, "action"))
    && IsText(Field(metadata.value, "previousValue")) && IsText(Field(metadata.value, "newValue"))
  }

  function LedgerEntries(items: seq<Json>): seq<Json> {
    if items == [] then []
    else LedgerEntries(items[..|items| - 1]) +
         if IsLedgerEntry(items[|items| - 1]) then [items[|items| - 1]] else []
  }

  function Sanitized(value: Json): LoadedCatalog {
    LoadedCatalog(
      Kept(Field(value, "proposals"), ValidateCatalogProposal),
      Kept(Field(value, "approved"), ValidateApprovedCatalog),
      Version(Field(value, "seedVersion")),
      Kept(Field(value, "reviews"), ParseReview),
      Kept(Field(value, "approvalHistory"), ParseStack),
      match Field(value, "auditEvents") case Some(JArray(items)) => LedgerEntries(items) case _ => [])
  }

  ghost function KeptAmong<V>(fields: map<string, Json>, ids: set<string>, parse: Json -> Option<V>): map<string, V>
    requires ids <= fields.Keys
  {
    map t | t in ids && t != "" && parse(fields[t]).Some? :: parse(fields[t]).value
  }

  lemma KeptAlso<V>(fields: map<string, Json>, ids: set<string>, id: string, parse: Json -> Option<V>)
    requires ids <= fields.Keys && id in fields && id !in ids
    ensures var before := KeptAmong(fields, ids, parse);
      KeptAmong(fields, ids + {id}, parse) ==
      if id != "" && parse(fields[id]).Some? then before[id := parse(fields[id]).value] else before
  {
  }

  lemma KeptEntries<V>(fields: map<string, Json>, parse: Json -> Option<V>)
    ensures KeptAmong(fields, {}, parse) == map[]
    ensures KeptAmong(fields, fields.Keys, parse) == Kept(Some(JObject(fields)), parse)
  {
  }

  /** The loop over an object's entries. */
  method KeepEntries<V>(value: Option<Json>, parse: Json -> Option<V>) returns (kept: map<string, V>)
    ensures kept == Kept(value, parse)
  {
    hide KeptAmong;
    kept := map[];
    if value.None? || !value.value.JObject? {
      return;
    }
    var fields := value.value.fields;
    KeptEntries(fields, parse);
    var todo := fields.Keys;
    assert fields.Keys - todo == {};
    while todo != {}
      invariant todo <= fields.Keys && kept == KeptAmong(fields, fields.Keys - todo, parse)
      decreases |todo|
    {
      var id :| id in todo;
      KeptAlso(fields, fields.Keys - todo, id, parse);
      assert fields.Keys - (todo - {id}) == (fields.Keys - todo) + {id};
      todo := todo - {id};
      if id == "" {
        continue;
      }
      var parsed := parse(fields[id]);
      if parsed.Some? {
        kept := kept[id := parsed.value];
      }
    }
    assert fields.Keys - todo == fields.Keys;
  }

  method FilterLedger(items: seq<Json>) returns (kept: seq<Json>)
    ensures kept == LedgerEntries(items)
  {
    kept := [];
    for i := 0 to |items|
      invariant kept == LedgerEntries(items[..i])
    {
      assert items[..i + 1][..i] == items[..i];
      if IsLedgerEntry(items[i]) {
        kept := kept + [items[i]];
      }
    }
    assert items[..|items|] == items;
  }

  method SanitizeCatalog(value: Json) returns (c: LoadedCatalog)
    ensures c == Sanitized(value)
  {
    var proposals := KeepEntries(Field(value, "proposals"), ValidateCatalogProposal);
    var approved := KeepEntries(Field(value, "approved"), ValidateApprovedCatalog);
    var reviews := KeepEntries(Field(value, "reviews"), ParseReview);
    var history := KeepEntries(Field(value, "approvalHistory"), ParseStack);
    var ledger := [];
    var events := Field(value, "auditEvents");
    if events.Some? && events.value.JArray? {
      ledger := FilterLedger(events.value.items);
    }
    c := LoadedCatalog(proposals, approved, Version(Field(value, "seedVersion")), reviews, history, ledger);
  }

  // ---------- saving ----------

  function ReviewName(s: ReviewStatus): string {
    match s
    case Approved => "approved" case Pending => "pending" case Deferred => "deferred" case Rejected => "rejected"
  }

  function ActionName(a: Action): string {
    match a case Approve => "approve" case Defer => "defer" case Reject => "reject" case Rollback => "rollback"
  }

  function EncodeReview(s: ReviewStatus): Json {
    JString(ReviewName(s))
  }

  function EncodeEntry(a: Option<ApprovedCatalog>): Json {
    match a case None => JNull case Some(v) => EncodeApproval(v)
  }

  function EncodeStack(s: seq<Option<ApprovedCatalog>>): Json {
    JArray(seq(|s|, (i: nat) requires i < |s| => EncodeEntry(s[i])))
  }

  function EncodeMap<V>(m: map<string, V>, encode: V -> Json): Json {
    JObject(map t | t in m :: encode(m[t]))
  }

  function EncodeRecord(r: Option<CatalogRecord>): Json {
    match r
    case None => JNull
    case Some(v) =>
      JObject(map[
        "toolId" := JString(v.toolId),
        "proposal" := if v.proposal.Some? then EncodeProposal(v.proposal.value) else JNull,
        "approved" := EncodeEntry(v.approved),
        "reviewStatus" := EncodeReview(v.reviewStatus)])
  }

  function EncodeMetadata(e: AuditEvent): Json {
    var required := map[
      "eventType" := JString("catalog-approval"),
      "action" := JString(ActionName(e.action)),
      "actor" := JString(e.actor),
      "previousValue" := JText(EncodeRecord(e.previousValue)),
      "newValue" := JText(EncodeRecord(e.newValue))];
    JObject(if e.key == "" then required else required["idempotencyKey" := JString(e.key)])
  }

  function EncodeEvent(e: AuditEvent): Json {
    JObject(map[
      "kind" := JString("audit"),
      "subjectId" := JString(e.subjectId),
      "source" := JString("systems-api"),
      "level" := JString("info"),
      "message" := JString("Catalog " + ActionName(e.action)),
      "timestamp" := JString(e.timestamp),
      "metadata" := EncodeMetadata(e)])
  }

  function EncodeEvents(ledger: seq<AuditEvent>): seq<Json> {
    seq(|ledger|, (i: nat) requires i < |ledger| => EncodeEvent(ledger[i]))
  }

  const CATALOG_FIELDS := {"proposals", "approved", "seedVersion", "reviews", "approvalHistory", "auditEvents"}

  /** A field of the saved catalog; the optional ones are written only when there is something
      in them. */
  function CatalogField(c: Catalog, name: string): Option<Json> {
    if name == "proposals" then Some(EncodeMap(c.proposals, EncodeProposal))
    else if name == "approved" then Some(EncodeMap(c.approved, EncodeApproval))
    else if name == "seedVersion" then
      (if c.seedVersion.Some? then Some(JNumber(c.seedVersion.value as real)) else None)
    else if name == "reviews" then
      (if c.reviews != map[] then Some(EncodeMap(c.reviews, EncodeReview)) else None)
    else if name == "approvalHistory" then
      (if c.history != map[] then Some(EncodeMap(c.history, EncodeStack)) else None)
    else if name == "auditEvents" then
      (if c.ledger != [] then Some(JArray(EncodeEvents(c.ledger))) else None)
    else None
  }

  function EncodeCatalog(c: Catalog): Json {
    JObject(map n | n in CATALOG_FIELDS && CatalogField(c, n).Some? :: CatalogField(c, n).value)
  }

  // ---------- the round trip ----------

  /** Every stored record is one its validator returned, under a name. */
  ghost predicate Normalized(c: Catalog) {
    && (forall t :: t in c.proposals || t in c.approved || t in c.reviews || t in c.history ==> t != "")
    && (forall t :: t in c.proposals ==> ValidProposal(c.proposals[t]))
    && (forall t :: t in c.approved ==> ValidApproval(c.approved[t]))
    && (forall t :: t in c.history ==> NormalizedStack(c.history[t]))
    && (c.seedVersion.Some? ==> SafeVersion(c.seedVersion.value))
  }

  ghost predicate NormalizedStack(s: seq<Option<ApprovedCatalog>>) {
    forall i :: 0 <= i < |s| && s[i].Some? ==> ValidApproval(s[i].value)
  }

  lemma MapRoundTrip<V(!new)>(m: map<string, V>, encode: V -> Json, parse: Json -> Option<V>)
    requires "" !in m
    requires forall t :: t in m ==> parse(encode(m[t])) == Some(m[t])
    ensures Kept(Some(EncodeMap(m, encode)), parse) == m
  {
  }

  lemma StackRoundTrip(s: seq<Option<ApprovedCatalog>>)
    requires NormalizedStack(s)
    ensures ParseStack(EncodeStack(s)) == Some(s)
  {
    hide ValidateApprovedCatalog, EncodeApproval, ValidApproval;
    var items := EncodeStack(s).items;
    forall i | 0 <= i < |items| ensures ParseEntry(items[i]) == Some(s[i]) {
      EntryRoundTrip(s[i]);
    }
    assert ParseStack(EncodeStack(s)).value == s;
  }

  lemma EntryRoundTrip(a: Option<ApprovedCatalog>)
    requires a.Some? ==> ValidApproval(a.value)
    ensures ParseEntry(EncodeEntry(a)) == Some(a)
  {
    hide ValidateApprovedCatalog, ValidApproval;
    if a.Some? {
      ApprovalRoundTrip(a.value);
    }
  }

  lemma ReviewRoundTrip(s: ReviewStatus)
    ensures ParseReview(EncodeReview(s)) == Some(s)
  {
  }

  /** Every entry the program writes passes the filter, so the ledger comes back entire. */
  lemma EventPasses(e: AuditEvent)
    ensures IsLedgerEntry(EncodeEvent(e))
  {
    hide EncodeRecord, ActionName;
    var m := EncodeMetadata(e);
    assert Field(m, "eventType") == Some(JString("catalog-approval"));
    assert Field(m, "actor") == Some(JString(e.actor));
    assert Field(m, "action") == Some(JString(ActionName(e.action)));
    assert Field(m, "previousValue") == Some(JText(EncodeRecord(e.previousValue)));
    assert Field(m, "newValue") == Some(JText(EncodeRecord(e.newValue)));
    hide EncodeMetadata;
    assert Field(EncodeEvent(e), "metadata") == Some(m);
  }

  lemma {:induction false} LedgerRoundTrip(ledger: seq<AuditEvent>)
    ensures LedgerEntries(EncodeEvents(ledger)) == EncodeEvents(ledger)
  {
    hide EncodeEvent, IsLedgerEntry;
    if ledger != [] {
      var n := |ledger| - 1;
      LedgerRoundTrip(ledger[..n]);
      EventPasses(ledger[n]);
      assert EncodeEvents(ledger)[..n] == EncodeEvents(ledger[..n]);
    }
  }

  lemma SavedField(c: Catalog, name: string)
    requires name in CATALOG_FIELDS
    ensures Field(EncodeCatalog(c), name) == CatalogField(c, name)
  {
    hide CatalogField;
  }

  /** Saving a normalized catalog and loading it gives it back: proposals, approvals, seed
      version, reviews, every history stack, and each ledger entry as it was written. */
  lemma CatalogRoundTrip(c: Catalog)
    requires Normalized(c)
    ensures Sanitized(EncodeCatalog(c)) ==
      LoadedCatalog(c.proposals, c.approved, c.seedVersion, c.reviews, c.history, EncodeEvents(c.ledger))
  {
    hide ValidateCatalogProposal, ValidateApprovedCatalog, EncodeProposal, EncodeApproval, ValidProposal,
      ValidApproval, EncodeCatalog, EncodeMap, EncodeStack, ParseStack, Kept, EncodeEvents, NormalizedStack;
    SavedField(c, "proposals");
    SavedField(c, "approved");
    SavedField(c, "seedVersion");
    SavedField(c, "reviews");
    SavedField(c, "approvalHistory");
    SavedField(c, "auditEvents");
    forall t | t in c.proposals
      ensures ValidateCatalogProposal(EncodeProposal(c.proposals[t])) == Some(c.proposals[t])
    {
      ProposalRoundTrip(c.proposals[t]);
    }
    MapRoundTrip(c.proposals, EncodeProposal, ValidateCatalogProposal);
    forall t | t in c.approved ensures ValidateApprovedCatalog(EncodeApproval(c.approved[t])) == Some(c.approved[t]) {
      ApprovalRoundTrip(c.approved[t]);
    }
    MapRoundTrip(c.approved, EncodeApproval, ValidateApprovedCatalog);
    forall t | t in c.reviews ensures ParseReview(EncodeReview(c.reviews[t])) == Some(c.reviews[t]) {
      ReviewRoundTrip(c.reviews[t]);
    }
    MapRoundTrip(c.reviews, EncodeReview, ParseReview);
    forall t | t in c.history ensures ParseStack(EncodeStack(c.history[t])) == Some(c.history[t]) {
      StackRoundTrip(c.history[t]);
    }
    MapRoundTrip(c.history, EncodeStack, ParseStack);
    NothingKept(ParseReview);
    NothingKept(ParseStack);
    if c.seedVersion.Some? { VersionOfEncoded(c.seedVersion.value); }
    LedgerRoundTrip(c.ledger);
    NoEvents(c.ledger);
  }

  lemma NothingKept<V>(parse: Json -> Option<V>)
    ensures Kept(None, parse) == map[]
  {
  }

  lemma NoEvents(ledger: seq<AuditEvent>)
    ensures ledger == [] ==> EncodeEvents(ledger) == []
  {
  }

  // ---------- reachable catalogs ----------

  /** The operation's proposal or approval came out of a validator. */
  ghost predicate Validated(op: Op) {
    match op
    case Submit(_, p) => p.Some? ==> ValidProposal(p.value)
    case SeedApprove(_, a) => a.Some? ==> ValidApproval(a.value)
    case Decide(_, _, _, a, _, _) => a.Some? ==> ValidApproval(a.value)
    case _ => true
  }

  lemma ApprovalNormalized(c: Catalog, toolId: string, valid: ApprovedCatalog)
    requires Normalized(c) && toolId != "" && ValidApproval(valid)
    ensures Normalized(ApplyApproval(c, toolId, valid))
  {
    hide ValidProposal, ValidApproval;
  }

  lemma RollbackNormalized(c: Catalog, toolId: string)
    requires Normalized(c) && ApplyRollback(c, toolId).Some?
    ensures Normalized(ApplyRollback(c, toolId).value)
  {
    hide ValidProposal, ValidApproval;
  }

  lemma EditNormalized(c: Catalog, toolId: string, action: Action, approved: Option<ApprovedCatalog>)
    requires Normalized(c) && (approved.Some? ==> ValidApproval(approved.value))
    ensures DecisionEdit(c, toolId, action, approved).Some? ==>
      Normalized(DecisionEdit(c, toolId, action, approved).value)
  {
    hide ValidProposal, ValidApproval;
    if DecisionEdit(c, toolId, action, approved).Some? {
      if action == Approve { ApprovalNormalized(c, toolId, approved.value); }
      if action == Rollback { RollbackNormalized(c, toolId); }
    }
  }

  lemma OperationNormalized(c: Catalog, op: Op)
    requires Normalized(c) && Validated(op)
    ensures Normalized(Next(c, op))
  {
    hide ValidProposal, ValidApproval;
    match op
    case Submit(t, p) =>
    case SeedApprove(t, a) => if t != "" && a.Some? { ApprovalNormalized(c, t, a.value); }
    case Review(t, reject) =>
    case PlainRollback(t) => if ApplyRollback(c, t).Some? { RollbackNormalized(c, t); }
    case SetSeedVersion(v) =>
    case Decide(t, action, actor, approved, key, at) => EditNormalized(c, t, action, approved);
  }

  lemma {:induction false} RunNormalized(ops: seq<Op>)
    requires forall i :: 0 <= i < |ops| ==> Validated(ops[i])
    ensures Normalized(CatalogLaws.Run(EMPTY_CATALOG, ops))
    decreases |ops|
  {
    hide Next, Validated;
    if ops != [] {
      RunNormalized(ops[..|ops| - 1]);
      OperationNormalized(CatalogLaws.Run(EMPTY_CATALOG, ops[..|ops| - 1]), ops[|ops| - 1]);
    }
  }

  /** Save then load is the identity on every catalog that operations can reach. */
  lemma ReachableCatalogLoadsBack(ops: seq<Op>)
    requires forall i :: 0 <= i < |ops| ==> Validated(ops[i])
    ensures var c := CatalogLaws.Run(EMPTY_CATALOG, ops);
      Sanitized(EncodeCatalog(c)) ==
        LoadedCatalog(c.proposals, c.approved, c.seedVersion, c.reviews, c.history, EncodeEvents(c.ledger))
  {
    hide Normalized, Validated;
    RunNormalized(ops);
    CatalogRoundTrip(CatalogLaws.Run(EMPTY_CATALOG, ops));
  }

  /** Validating a reachable catalog's records again, as showing them does, changes none. */
  lemma RevalidationChangesNothing(ops: seq<Op>, toolId: string)
    requires forall i :: 0 <= i < |ops| ==> Validated(ops[i])
    ensures match RecordOf(CatalogLaws.Run(EMPTY_CATALOG, ops), toolId)
      case None => true
      case Some(r) =>
        && (r.proposal.Some? ==> ValidateCatalogProposal(EncodeProposal(r.proposal.value)) == r.proposal)
        && (r.approved.Some? ==> ValidateApprovedCatalog(EncodeApproval(r.approved.value)) == r.approved)
  {
    hide Validated, ValidateCatalogProposal, ValidateApprovedCatalog, EncodeProposal, EncodeApproval,
      ValidProposal, ValidApproval;
    RunNormalized(ops);
    var r := RecordOf(CatalogLaws.Run(EMPTY_CATALOG, ops), toolId);
    if r.Some? && r.value.proposal.Some? { ProposalRoundTrip(r.value.proposal.value); }
    if r.Some? && r.value.approved.Some? { ApprovalRoundTrip(r.value.approved.value); }
  }
}
