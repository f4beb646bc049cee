/** Which JSON a proposal, an approval and a saved catalog are read from: the fields by name, what each
    must hold, and what is made of it. */
module CatalogFormat {
  import opened Wrappers
  import opened Text
  import opened Tables
  import opened CatalogRecords
  import opened CatalogState
  import opened CatalogSnapshot

  // ---------- fields ----------

  ghost predicate Holds(j: Json, name: string, v: Json) {
    j.JObject? && name in j.fields && j.fields[name] == v
  }

  /** A list of texts, each taken as it is. */
  ghost predicate Lists(j: Json, name: string, texts: seq<string>) {
    j.JObject? && name in j.fields && j.fields[name].JArray? && |j.fields[name].items| == |texts|
    && forall i :: 0 <= i < |texts| ==> j.fields[name].items[i] == JString(texts[i])
  }

  /** Texts of a vocabulary, none of them twice. */
  ghost predicate ListsFrom(j: Json, name: string, texts: seq<string>, allowed: seq<string>) {
    Lists(j, name, texts)
    && (forall i :: 0 <= i < |texts| ==> texts[i] in allowed)
    && forall i, k :: 0 <= i < k < |texts| ==> texts[i] != texts[k]
  }

  /** A list of texts, each trimmed: none may be blank, and no two the same afterwards. */
  ghost predicate ListsTrimmed(j: Json, name: string, texts: seq<string>) {
    j.JObject? && name in j.fields && j.fields[name].JArray? && |j.fields[name].items| == |texts|
    && (forall i :: 0 <= i < |texts| ==>
          j.fields[name].items[i].JString? && IsTrimmed(j.fields[name].items[i].text, texts[i]) && texts[i] != "")
    && forall i, k :: 0 <= i < k < |texts| ==> texts[i] != texts[k]
  }

  ghost predicate HoldsVersion(j: Json, name: string, v: nat) {
    Holds(j, name, JNumber(v as real)) && 1 <= v <= 0x1F_FFFF_FFFF_FFFF
  }

  ghost predicate HoldsTime(j: Json, name: string, t: string) {
    Holds(j, name, JString(t)) && IsTimestampText(t)
  }

  lemma ListsIs(j: Json, name: string, texts: seq<string>)
    ensures StringsOf(Field(j, name)) == Some(texts) <==> Lists(j, name, texts)
  {
    if Lists(j, name, texts) {
      assert Strings(j.fields[name].items).value == texts;
    }
  }

  lemma ListsFromIs(j: Json, name: string, texts: seq<string>, allowed: seq<string>, some: bool)
    ensures ControlledArray(Field(j, name), allowed, some) == Some(texts)
      <==> ListsFrom(j, name, texts, allowed) && (some ==> texts != [])
  {
    hide StringsOf, Lists;
    ListsIs(j, name, texts);
  }

  lemma ListsTrimmedIs(j: Json, name: string, texts: seq<string>)
    ensures StringArray(Field(j, name)) == Some(texts) <==> ListsTrimmed(j, name, texts)
  {
    hide Trim, IsTrimmed;
    var read := StringsOf(Field(j, name));
    if read.Some? {
      forall i | 0 <= i < |read.value| ensures IsTrimmed(read.value[i], Trim(read.value[i])) {
        TrimIs(read.value[i]);
      }
    }
    if ListsTrimmed(j, name, texts) {
      forall i | 0 <= i < |texts| ensures texts[i] == Trim(j.fields[name].items[i].text) {
        TrimmedOnce(j.fields[name].items[i].text, texts[i]);
      }
      assert seq(|read.value|, (i: nat) requires i < |read.value| => Trim(read.value[i])) == texts;
    }
  }

  lemma VersionIs(j: Json, name: string, v: nat)
    ensures Version(Field(j, name)) == Some(v) <==> HoldsVersion(j, name, v)
  {
  }

  // ---------- proposals and approvals ----------

  ghost predicate ProposalReads(j: Json, p: CatalogProposal) {
    && ListsFrom(j, "suggestedShelves", p.suggestedShelves,
                 ["everyday", "work", "create", "develop", "operate", "personal", "explore"])
    && p.suggestedShelves != []
    && ListsFrom(j, "suggestedAudiences", p.suggestedAudiences,
                 ["general", "business", "creator", "developer", "operations", "power-user"])
    && ListsTrimmed(j, "capabilities", p.capabilities) && ListsTrimmed(j, "keywords", p.keywords)
    && HoldsTime(j, "submittedAt", p.submittedAt) && HoldsVersion(j, "version", p.version)
  }

  /** A proposal is accepted, and becomes this record, exactly when its fields read so. */
  lemma ProposalReadIff(j: Json, p: CatalogProposal)
    ensures ValidateCatalogProposal(j) == Some(p) <==> ProposalReads(j, p)
  {
    hide ControlledArray, StringArray, Version, ListsFrom, ListsTrimmed, HoldsVersion, IsTimestampText;
    ListsFromIs(j, "suggestedShelves", p.suggestedShelves, SHELVES, true);
    ListsFromIs(j, "suggestedAudiences", p.suggestedAudiences, AUDIENCES, false);
    ListsTrimmedIs(j, "capabilities", p.capabilities);
    ListsTrimmedIs(j, "keywords", p.keywords);
    VersionIs(j, "version", p.version);
  }

  ghost predicate HoldsOneOf(j: Json, name: string, t: string, allowed: seq<string>) {
    Holds(j, name, JString(t)) && t in allowed
  }

  ghost predicate ApprovalReads(j: Json, a: ApprovedCatalog) {
    var shelves := ["everyday", "work", "create", "develop", "operate", "personal", "explore"];
    && HoldsOneOf(j, "primaryShelf", a.primaryShelf, shelves)
    && ListsFrom(j, "secondaryShelves", a.secondaryShelves, shelves) && a.primaryShelf !in a.secondaryShelves
    && ListsFrom(j, "audiences", a.audiences,
                 ["general", "business", "creator", "developer", "operations", "power-user"])
    && ListsTrimmed(j, "capabilities", a.capabilities)
    && HoldsOneOf(j, "maturity", a.maturity, ["stable", "preview", "experimental"])
    && HoldsOneOf(j, "visibility", a.visibility, ["default", "discoverable", "restricted", "hidden"])
    && HoldsOneOf(j, "surface", a.surface, ["user-app", "developer-tool", "admin-console", "platform-service"])
    && HoldsOneOf(j, "releaseState", a.releaseState, ["staged", "released", "retired"])
    && HoldsTime(j, "approvedAt", a.approvedAt) && HoldsVersion(j, "version", a.version)
    && Holds(j, "approvedBy", JString(a.approvedBy)) && a.approvedBy != "" && IsTrimmed(a.approvedBy, a.approvedBy)
  }

  lemma OneOfIs(j: Json, name: string, t: string, allowed: seq<string>)
    ensures OneOf(Field(j, name), allowed) == Some(t) <==> HoldsOneOf(j, name, t, allowed)
  {
  }

  lemma ApproverIs(j: Json, t: string)
    ensures Approver(Field(j, "approvedBy")) == Some(t)
      <==> Holds(j, "approvedBy", JString(t)) && t != "" && IsTrimmed(t, t)
  {
    hide Trim, IsTrimmed;
    TrimIs(t);
    if IsTrimmed(t, t) { TrimmedOnce(t, t); }
  }

  lemma ApprovalReadIff(j: Json, a: ApprovedCatalog)
    ensures ValidateApprovedCatalog(j) == Some(a) <==> ApprovalReads(j, a)
  {
    hide ControlledArray, StringArray, Version, OneOf, Approver, ListsFrom, ListsTrimmed, HoldsVersion, HoldsOneOf,
      IsTimestampText, IsTrimmed;
    OneOfIs(j, "primaryShelf", a.primaryShelf, SHELVES);
    OneOfIs(j, "maturity", a.maturity, MATURITIES);
    OneOfIs(j, "visibility", a.visibility, VISIBILITIES);
    OneOfIs(j, "surface", a.surface, SURFACES);
    OneOfIs(j, "releaseState", a.releaseState, RELEASE_STATES);
    ListsFromIs(j, "secondaryShelves", a.secondaryShelves, SHELVES, false);
    ListsFromIs(j, "audiences", a.audiences, AUDIENCES, false);
    ListsTrimmedIs(j, "capabilities", a.capabilities);
    ApproverIs(j, a.approvedBy);
    VersionIs(j, "version", a.version);
  }

  // ---------- the saved catalog ----------

  /** A table of the saved catalog has an entry under a name that is not blank. */
  ghost predicate Saved(j: Json, table: string, t: string, v: Json) {
    t != "" && j.JObject? && table in j.fields && Holds(j.fields[table], t, v)
  }

  ghost predicate ReviewReads(v: Json, r: ReviewStatus) {
    match r
    case Approved => v == JString("approved")
    case Pending => v == JString("pending")
    case Deferred => v == JString("deferred")
    case Rejected => v == JString("rejected")
  }

  /** A stack reads when each of its entries is null or an approval. */
  ghost predicate StackReads(v: Json, s: seq<Option<ApprovedCatalog>>) {
    v.JArray? && |v.items| == |s| && forall i :: 0 <= i < |s| ==>
      match s[i] case None => v.items[i] == JNull case Some(a) => ApprovalReads(v.items[i], a)
  }

  ghost predicate IsWords(j: Json, name: string) {
    j.JObject? && name in j.fields && (j.fields[name].JString? || j.fields[name].JText?)
  }

  /** An entry the ledger keeps: an audit event of the registry about the catalog, complete. */
  ghost predicate Auditable(e: Json) {
    && Holds(e, "kind", JString("audit")) && Holds(e, "source", JString("systems-api"))
    && IsWords(e, "subjectId") && IsWords(e, "timestamp")
    && "metadata" in e.fields && Holds(e.fields["metadata"], "eventType", JString("catalog-approval"))
    && IsWords(e.fields["metadata"], "actor") && IsWords(e.fields["metadata"], "action")
    && IsWords(e.fields["metadata"], "previousValue") && IsWords(e.fields["metadata"], "newValue")
  }

  lemma KeptIs<V(!new)>(j: Json, table: string, parse: Json -> Option<V>, t: string, x: V)
    ensures var kept := Kept(Field(j, table), parse);
      t in kept && kept[t] == x <==> exists v :: Saved(j, table, t, v) && parse(v) == Some(x)
  {
    var kept := Kept(Field(j, table), parse);
    if t in kept && kept[t] == x {
      assert Saved(j, table, t, j.fields[table].fields[t]);
    }
  }

  lemma StackIs(v: Json, s: seq<Option<ApprovedCatalog>>)
    ensures ParseStack(v) == Some(s) <==> StackReads(v, s)
  {
    hide ValidateApprovedCatalog, ApprovalReads;
    if v.JArray? {
      forall i, a | 0 <= i < |v.items|
        ensures ValidateApprovedCatalog(v.items[i]) == Some(a) <==> ApprovalReads(v.items[i], a)
      {
        ApprovalReadIff(v.items[i], a);
      }
      if |v.items| == |s| { EntriesRead(v, s); }
    }
  }

  lemma EntriesRead(v: Json, s: seq<Option<ApprovedCatalog>>)
    requires v.JArray? && |v.items| == |s|
    ensures StackReads(v, s) <==> forall i :: 0 <= i < |s| ==> ParseEntry(v.items[i]) == Some(s[i])
    ensures StackReads(v, s) ==> ParseStack(v).Some? && ParseStack(v).value == s
  {
    hide ValidateApprovedCatalog, ApprovalReads;
    forall i | 0 <= i < |s|
      ensures ParseEntry(v.items[i]) == Some(s[i])
        <==> match s[i] case None => v.items[i] == JNull case Some(a) => ApprovalReads(v.items[i], a)
    {
      match s[i]
      case None =>
      case Some(a) => ApprovalReadIff(v.items[i], a); NullIsNoApproval(a);
    }
  }

  lemma NullIsNoApproval(a: ApprovedCatalog)
    ensures !ApprovalReads(JNull, a)
  {
  }

  ghost predicate SavesProposal(j: Json, t: string, p: CatalogProposal) {
    exists e :: Saved(j, "proposals", t, e) && ProposalReads(e, p)
  }

  ghost predicate SavesApproval(j: Json, t: string, a: ApprovedCatalog) {
    exists e :: Saved(j, "approved", t, e) && ApprovalReads(e, a)
  }

  ghost predicate SavesReview(j: Json, t: string, r: ReviewStatus) {
    exists e :: Saved(j, "reviews", t, e) && ReviewReads(e, r)
  }

  ghost predicate SavesStack(j: Json, t: string, s: seq<Option<ApprovedCatalog>>) {
    exists e :: Saved(j, "approvalHistory", t, e) && StackReads(e, s)
  }

  /** What the sanitizer keeps, table by table: every entry under a name that reads, as what it reads
      as, and nothing else. */
  lemma TablesAre(j: Json, t: string)
    ensures var l := Sanitized(j);
      && (forall p :: t in l.proposals && l.proposals[t] == p <==> SavesProposal(j, t, p))
      && (forall a :: t in l.approved && l.approved[t] == a <==> SavesApproval(j, t, a))
      && (forall r :: t in l.reviews && l.reviews[t] == r <==> SavesReview(j, t, r))
      && (forall s :: t in l.history && l.history[t] == s <==> SavesStack(j, t, s))
  {
    hide Kept, Saved, ValidateCatalogProposal, ValidateApprovedCatalog, ParseReview, ParseStack, ProposalReads,
      ApprovalReads, ReviewReads, StackReads, LedgerEntries, Version;
    var l := Sanitized(j);
    forall p ensures t in l.proposals && l.proposals[t] == p <==> SavesProposal(j, t, p) {
      KeptIs(j, "proposals", ValidateCatalogProposal, t, p);
      forall v ensures ValidateCatalogProposal(v) == Some(p) <==> ProposalReads(v, p) { ProposalReadIff(v, p); }
    }
    forall a ensures t in l.approved && l.approved[t] == a <==> SavesApproval(j, t, a) {
      KeptIs(j, "approved", ValidateApprovedCatalog, t, a);
      forall v ensures ValidateApprovedCatalog(v) == Some(a) <==> ApprovalReads(v, a) { ApprovalReadIff(v, a); }
    }
    forall r ensures t in l.reviews && l.reviews[t] == r <==> SavesReview(j, t, r) {
      KeptIs(j, "reviews", ParseReview, t, r);
      forall v ensures ParseReview(v) == Some(r) <==> ReviewReads(v, r) { ReviewIs(v, r); }
    }
    forall s ensures t in l.history && l.history[t] == s <==> SavesStack(j, t, s) {
      KeptIs(j, "approvalHistory", ParseStack, t, s);
      forall v ensures ParseStack(v) == Some(s) <==> StackReads(v, s) { StackIs(v, s); }
    }
  }

  lemma ReviewIs(v: Json, r: ReviewStatus)
    ensures ParseReview(v) == Some(r) <==> ReviewReads(v, r)
  {
  }

  lemma AuditableIs(e: Json)
    ensures IsLedgerEntry(e) <==> Auditable(e)
  {
  }

  lemma {:induction false} EntriesAre(items: seq<Json>) returns (places: seq<nat>)
    ensures Places(places, items, Auditable)
    ensures |LedgerEntries(items)| == |places| && forall k :: 0 <= k < |places| ==>
      places[k] < |items| && LedgerEntries(items)[k] == items[places[k]]
    decreases |items|
  {
    hide Places, IsLedgerEntry, Auditable;
    places := [];
    if items == [] {
      NoPlaces(Auditable);
    } else {
      var last: nat := |items| - 1;
      places := EntriesAre(items[..last]);
      PlacesOn(places, items, Auditable);
      AuditableIs(items[last]);
      if Auditable(items[last]) { places := places + [last]; }
    }
  }

  /** The ledger keeps the complete audit events, unchanged and in order; the seed version is kept if
      it is a whole number in range. */
  lemma LedgerIs(j: Json) returns (places: seq<nat>)
    ensures var l := Sanitized(j);
      var items := if j.JObject? && "auditEvents" in j.fields && j.fields["auditEvents"].JArray?
                   then j.fields["auditEvents"].items else [];
      && Places(places, items, Auditable) && |l.ledger| == |places|
      && (forall k :: 0 <= k < |places| ==> places[k] < |items| && l.ledger[k] == items[places[k]])
      && forall v: nat :: l.seedVersion == Some(v) <==> HoldsVersion(j, "seedVersion", v)
  {
    hide Places, Auditable, Version, HoldsVersion, LedgerEntries, Kept;
    var items := if j.JObject? && "auditEvents" in j.fields && j.fields["auditEvents"].JArray?
                 then j.fields["auditEvents"].items else [];
    places := EntriesAre(items);
    assert LedgerEntries([]) == [] by { NoEntries(); }
    forall v: nat ensures Version(Field(j, "seedVersion")) == Some(v) <==> HoldsVersion(j, "seedVersion", v) {
      VersionIs(j, "seedVersion", v);
    }
  }

  lemma NoEntries()
    ensures LedgerEntries([]) == []
  {
  }

  /** An entry as it is written says whose catalog was decided on, how, by whom and when, and under
      which key if there was one. */
  lemma EntrySays(e: AuditEvent)
    ensures var j := EncodeEvent(e);
      && Holds(j, "kind", JString("audit")) && Holds(j, "source", JString("systems-api"))
      && Holds(j, "subjectId", JString(e.subjectId)) && Holds(j, "timestamp", JString(e.timestamp))
      && "metadata" in j.fields && var m := j.fields["metadata"];
      && Holds(m, "eventType", JString("catalog-approval")) && Holds(m, "actor", JString(e.actor))
      && Holds(m, "action", JString(match e.action
           case Approve => "approve" case Defer => "defer" case Reject => "reject" case Rollback => "rollback"))
      && (e.key != "" ==> Holds(m, "idempotencyKey", JString(e.key)))
      && (e.key == "" ==> m.JObject? && "idempotencyKey" !in m.fields)
  {
    hide EncodeRecord;
  }
}
