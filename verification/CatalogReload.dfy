/** A saved catalog read back into memory: the store's own sanitizer, applied to the JSON a
    catalog is written as, with the ledger's entries read by the fields the program uses. */
module CatalogReload {
  import opened Wrappers
  import opened CatalogRecords
  import opened CatalogState
  import opened CatalogSnapshot

  // ---------- reading a ledger entry ----------

  function Words(value: Option<Json>): string {
    AsString(value).GetOr("")
  }

  function Texts(value: Option<Json>): seq<string> {
    StringsOf(value).GetOr([])
  }

  function Whole(value: Option<Json>): nat {
    match value case Some(JNumber(n)) => (if n.Floor < 0 then 0 else n.Floor) case _ => 0
  }

  /** The key an entry was committed under, as a lookup by key sees it. */
  function EntryKey(entry: Json): Option<string> {
    AsString(Field(Field(entry, "metadata").GetOr(JNull), "idempotencyKey"))
  }

  function ReadProposal(j: Json): CatalogProposal {
    CatalogProposal(
      Texts(Field(j, "suggestedShelves")), Texts(Field(j, "suggestedAudiences")), Texts(Field(j, "capabilities")),
      Texts(Field(j, "keywords")), Words(Field(j, "submittedAt")), Whole(Field(j, "version")))
  }

  function ReadApproval(j: Json): ApprovedCatalog {
    ApprovedCatalog(
      Words(Field(j, "primaryShelf")), Texts(Field(j, "secondaryShelves")), Texts(Field(j, "audiences")),
      Texts(Field(j, "capabilities")), Words(Field(j, "maturity")), Words(Field(j, "visibility")),
      Words(Field(j, "surface")), Words(Field(j, "releaseState")), Words(Field(j, "approvedAt")),
      Words(Field(j, "approvedBy")), Whole(Field(j, "version")))
  }

  function Present(value: Option<Json>): Option<Json> {
    if value == Some(JNull) then None else value
  }

  function ReadRecord(value: Option<Json>): Option<CatalogRecord> {
    match value
    case Some(JText(j)) =>
      if !j.JObject? then None
      else
        var proposal := Present(Field(j, "proposal"));
        var approved := Present(Field(j, "approved"));
        Some(CatalogRecord(
          Words(Field(j, "toolId")),
          if proposal.Some? then Some(ReadProposal(proposal.value)) else None,
          if approved.Some? then Some(ReadApproval(approved.value)) else None,
          ParseReview(Field(j, "reviewStatus").GetOr(JNull)).GetOr(Pending)))
    case _ => None
  }

  function ActionNamed(name: string): Action {
    if name == "approve" then Approve else if name == "defer" then Defer
    else if name == "reject" then Reject else Rollback
  }

  function ReadEvent(j: Json): AuditEvent {
    var m := Field(j, "metadata").GetOr(JNull);
    AuditEvent(
      Words(Field(j, "subjectId")), ActionNamed(Words(Field(m, "action"))), Words(Field(m, "actor")),
      EntryKey(j).GetOr(""), Words(Field(j, "timestamp")),
      ReadRecord(Field(m, "previousValue")), ReadRecord(Field(m, "newValue")))
  }

  function ReadEvents(items: seq<Json>): seq<AuditEvent> {
    seq(|items|, (i: nat) requires i < |items| => ReadEvent(items[i]))
  }

  /** What a restart makes of a catalog it finds on disk. */
  function Reread(c: Catalog): Catalog {
    var l := Sanitized(EncodeCatalog(c));
    Catalog(l.proposals, l.approved, l.seedVersion, l.reviews, l.history, ReadEvents(l.ledger))
  }

  // ---------- entries come back as they were ----------

  lemma ProposalRead(p: CatalogProposal)
    ensures ReadProposal(EncodeProposal(p)) == p
  {
    hide EncodeProposal;
    ProposalFields(p);
    StringsOfEncoded(p.suggestedShelves);
    StringsOfEncoded(p.suggestedAudiences);
    StringsOfEncoded(p.capabilities);
    StringsOfEncoded(p.keywords);
  }

  lemma ApprovalRead(a: ApprovedCatalog)
    ensures ReadApproval(EncodeApproval(a)) == a
  {
    hide EncodeApproval;
    ApprovalFields(a);
    StringsOfEncoded(a.secondaryShelves);
    StringsOfEncoded(a.audiences);
    StringsOfEncoded(a.capabilities);
  }

  lemma RecordRead(r: Option<CatalogRecord>)
    ensures ReadRecord(Some(JText(EncodeRecord(r)))) == r
  {
    hide EncodeProposal, EncodeApproval, ReadProposal, ReadApproval, ParseReview, EncodeReview;
    if r.Some? {
      var v := r.value;
      if v.proposal.Some? { ProposalRead(v.proposal.value); ProposalIsObject(v.proposal.value); }
      if v.approved.Some? { ApprovalRead(v.approved.value); ApprovalIsObject(v.approved.value); }
      ReviewRoundTrip(v.reviewStatus);
      var j := EncodeRecord(r);
      assert Field(j, "toolId") == Some(JString(v.toolId));
      assert Field(j, "proposal") == Some(if v.proposal.Some? then EncodeProposal(v.proposal.value) else JNull);
      assert Field(j, "approved") == Some(EncodeEntry(v.approved));
      assert Field(j, "reviewStatus") == Some(EncodeReview(v.reviewStatus));
    }
  }

  lemma ProposalIsObject(p: CatalogProposal)
    ensures EncodeProposal(p) != JNull
  {
  }

  lemma ApprovalIsObject(a: ApprovedCatalog)
    ensures EncodeApproval(a) != JNull
  {
  }

  lemma ActionRead(a: Action)
    ensures ActionNamed(ActionName(a)) == a
  {
    assert |"approve"| == 7 && |"defer"| == 5 && |"reject"| == 6 && |"rollback"| == 8;
  }

  lemma MetadataFields(e: AuditEvent)
    ensures var m := EncodeMetadata(e);
      && Field(m, "action") == Some(JString(ActionName(e.action))) && Field(m, "actor") == Some(JString(e.actor))
      && Field(m, "previousValue") == Some(JText(EncodeRecord(e.previousValue)))
      && Field(m, "newValue") == Some(JText(EncodeRecord(e.newValue)))
      && Field(m, "idempotencyKey") == if e.key == "" then None else Some(JString(e.key))
  {
    hide EncodeRecord, ActionName;
  }

  lemma EventFields(e: AuditEvent)
    ensures var j := EncodeEvent(e);
      && Field(j, "subjectId") == Some(JString(e.subjectId)) && Field(j, "timestamp") == Some(JString(e.timestamp))
      && Field(j, "metadata") == Some(EncodeMetadata(e))
  {
    hide EncodeMetadata, ActionName;
  }

  /** A committed entry shows its key exactly when the caller gave one. */
  lemma EntryKeyReadBack(e: AuditEvent)
    ensures EntryKey(EncodeEvent(e)) == if e.key == "" then None else Some(e.key)
  {
    hide EncodeEvent, EncodeMetadata;
    EventFields(e);
    MetadataFields(e);
  }

  lemma EventRead(e: AuditEvent)
    ensures ReadEvent(EncodeEvent(e)) == e
  {
    hide EncodeEvent, EncodeMetadata, EncodeRecord, ReadRecord, ActionName, ActionNamed;
    EventFields(e);
    MetadataFields(e);
    EntryKeyReadBack(e);
    RecordRead(e.previousValue);
    RecordRead(e.newValue);
    ActionRead(e.action);
  }

  lemma EventsRead(ledger: seq<AuditEvent>)
    ensures ReadEvents(EncodeEvents(ledger)) == ledger
  {
    hide EncodeEvent, ReadEvent;
    forall i | 0 <= i < |ledger| ensures ReadEvents(EncodeEvents(ledger))[i] == ledger[i] {
      EventRead(ledger[i]);
    }
  }

  /** The entries a restart keeps hold a key exactly when the ledger that was saved did. */
  lemma KeysReadBack(c: Catalog, key: string)
    requires Normalized(c) && key != ""
    ensures KeyUsed(c, key) <==>
      exists i :: 0 <= i < |Sanitized(EncodeCatalog(c)).ledger|
                  && EntryKey(Sanitized(EncodeCatalog(c)).ledger[i]) == Some(key)
  {
    hide EncodeCatalog, Sanitized, Normalized, EntryKey, EncodeEvent;
    CatalogRoundTrip(c);
    var entries := Sanitized(EncodeCatalog(c)).ledger;
    forall i | 0 <= i < |entries|
      ensures EntryKey(entries[i]) == if c.ledger[i].key == "" then None else Some(c.ledger[i].key)
    {
      EntryKeyReadBack(c.ledger[i]);
    }
    if KeyUsed(c, key) {
      var i :| 0 <= i < |c.ledger| && c.ledger[i].key == key;
      assert EntryKey(entries[i]) == Some(key);
    }
  }

  // ---------- what a restart changes ----------

  lemma KeptIsNamed<V(!new)>(value: Option<Json>, parse: Json -> Option<V>)
    ensures "" !in Kept(value, parse)
    ensures forall t :: t in Kept(value, parse) ==> exists j: Json :: parse(j) == Some(Kept(value, parse)[t])
  {
    match value
    case Some(JObject(fields)) =>
      forall t | t in Kept(value, parse) ensures exists j: Json :: parse(j) == Some(Kept(value, parse)[t]) {
        assert parse(fields[t]) == Some(Kept(value, parse)[t]);
      }
    case _ =>
  }

  lemma ParsedStackNormalized(value: Json)
    ensures ParseStack(value).Some? ==> NormalizedStack(ParseStack(value).value)
  {
    hide ValidateApprovedCatalog, ValidApproval;
    if ParseStack(value).Some? {
      var s := ParseStack(value).value;
      forall i | 0 <= i < |s| && s[i].Some? ensures ValidApproval(s[i].value) {
        assert ParseEntry(value.items[i]).Some?;
        ValidatedApprovalIsValid(value.items[i]);
      }
    }
  }

  /** Whatever is on disk, a restart puts a normalized catalog in memory. */
  lemma SanitizedIsNormalized(value: Json)
    ensures var l := Sanitized(value);
      Normalized(Catalog(l.proposals, l.approved, l.seedVersion, l.reviews, l.history, ReadEvents(l.ledger)))
  {
    hide ValidateCatalogProposal, ValidateApprovedCatalog, ValidProposal, ValidApproval, ParseStack, ParseReview,
      NormalizedStack, Kept, ReadEvents, LedgerEntries;
    var l := Sanitized(value);
    KeptIsNamed(Field(value, "proposals"), ValidateCatalogProposal);
    KeptIsNamed(Field(value, "approved"), ValidateApprovedCatalog);
    KeptIsNamed(Field(value, "reviews"), ParseReview);
    KeptIsNamed(Field(value, "approvalHistory"), ParseStack);
    forall t | t in l.proposals ensures ValidProposal(l.proposals[t]) {
      var j: Json :| ValidateCatalogProposal(j) == Some(l.proposals[t]);
      ValidatedProposalIsValid(j);
    }
    forall t | t in l.approved ensures ValidApproval(l.approved[t]) {
      var j: Json :| ValidateApprovedCatalog(j) == Some(l.approved[t]);
      ValidatedApprovalIsValid(j);
    }
    forall t | t in l.history ensures NormalizedStack(l.history[t]) {
      var j: Json :| ParseStack(j) == Some(l.history[t]);
      ParsedStackNormalized(j);
    }
  }

  /** A restart gives a catalog back exactly when all its records are ones their validators
      accept; otherwise it drops what they refuse. */
  lemma RereadIsIdentityIff(c: Catalog)
    ensures Reread(c) == c <==> Normalized(c)
  {
    hide EncodeCatalog, Sanitized, Normalized, ReadEvents;
    SanitizedIsNormalized(EncodeCatalog(c));
    if Normalized(c) {
      CatalogRoundTrip(c);
      EventsRead(c.ledger);
    }
  }
}
