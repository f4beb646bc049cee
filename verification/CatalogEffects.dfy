/** What each catalog operation does, table by table, and what is shown afterwards. */
module CatalogEffects {
  import opened Wrappers
  import opened CatalogRecords
  import opened CatalogState
  import opened CatalogLaws
  import opened CatalogRegistry
  import JsonStore
  import Store = JsonStoreRuns
  import Files = JsonStoreEffects

  /** The record shown for a tool is `proposal`, `approved` and `review`. */
  ghost predicate Shows(
      c: Catalog, t: string, proposal: Option<CatalogProposal>, approved: Option<ApprovedCatalog>,
      review: ReviewStatus)
  {
    RecordOf(c, t) == Some(CatalogRecord(t, proposal, approved, review))
  }

  /** Nothing is shown for a tool without a proposal and an approval. Otherwise both are shown as
      they are stored, with the stored review; where none is stored, a proposal newer than the
      approval, or without one, counts as pending, and the rest as approved. */
  lemma RecordIsWhatIsStored(c: Catalog, t: string)
    ensures RecordOf(c, t).None? <==> t !in c.proposals && t !in c.approved
    ensures RecordOf(c, t).Some? ==> var r := RecordOf(c, t).value;
      && r.toolId == t
      && (r.proposal.Some? <==> t in c.proposals) && (t in c.proposals ==> r.proposal == Some(c.proposals[t]))
      && (r.approved.Some? <==> t in c.approved) && (t in c.approved ==> r.approved == Some(c.approved[t]))
      && (t in c.reviews ==> r.reviewStatus == c.reviews[t])
      && (t !in c.reviews ==>
            r.reviewStatus == (
              if t in c.proposals && t !in c.approved then Pending
              else if t in c.proposals && c.proposals[t].version > c.approved[t].version then Pending
              else Approved))
  {
  }

  /** A committed submission stores the proposal; a proposal that differs from the stored one is
      up for review again; nothing else changes. The record returned shows it, and it can be
      approved. */
  lemma SubmissionIsStored(c: Catalog, t: string, p: CatalogProposal)
    requires PlanOf(c, Submit(t, Some(p))).Commit?
    ensures var next := Next(c, Submit(t, Some(p)));
      && next.proposals == c.proposals[t := p]
      && next.reviews == (if t in c.proposals && c.proposals[t] == p then c.reviews else c.reviews[t := Pending])
      && next.approved == c.approved && next.history == c.history && next.seedVersion == c.seedVersion
      && next.ledger == c.ledger
      && RecordOf(next, t).Some? && RecordOf(next, t).value.proposal == Some(p)
      && (!(t in c.proposals && c.proposals[t] == p) ==> RecordOf(next, t).value.reviewStatus == Pending)
      && forall a, actor, key, at :: (key != "" ==> !KeyUsed(next, key)) ==>
           PlanOf(next, Decide(t, Approve, actor, Some(a), key, at)).Commit?
  {
    var next := Next(c, Submit(t, Some(p)));
    forall a, actor, key, at | key != "" ==> !KeyUsed(next, key)
      ensures PlanOf(next, Decide(t, Approve, actor, Some(a), key, at)).Commit?
    {
      assert DecisionEdit(next, t, Approve, Some(a)).Some?;
    }
  }

  /** What an approval leaves, whichever operation gives it: the approval on record, the one
      before it in the history, and a review that is pending only while a newer proposal waits. */
  ghost predicate Approves(c: Catalog, next: Catalog, t: string, a: ApprovedCatalog) {
    && next.approved == c.approved[t := a] && next.proposals == c.proposals && next.seedVersion == c.seedVersion
    && next.history == c.history[t :=
         (if t in c.history then c.history[t] else []) + [if t in c.approved then Some(c.approved[t]) else None]]
    && next.reviews == c.reviews[t :=
         if t in c.proposals && c.proposals[t].version > a.version then Pending else Approved]
    && Shows(next, t, if t in c.proposals then Some(c.proposals[t]) else None, Some(a),
             if t in c.proposals && c.proposals[t].version > a.version then Pending else Approved)
  }

  /** What a rollback leaves: the approval before the last, or none, and a review that is approved
      only if that approval covers the proposal. */
  ghost predicate RollsBack(c: Catalog, next: Catalog, t: string) {
    && t in c.history && c.history[t] != []
    && next.proposals == c.proposals && next.seedVersion == c.seedVersion
    && var last := |c.history[t]| - 1;
      && next.history == c.history[t := c.history[t][..last]]
      && (c.history[t][last].Some? ==> next.approved == c.approved[t := c.history[t][last].value])
      && (c.history[t][last].None? ==> next.approved == c.approved - {t})
      && next.reviews == c.reviews[t :=
           if c.history[t][last].None? then Pending
           else if t in c.proposals && c.proposals[t].version > c.history[t][last].value.version then Pending
           else Approved]
  }

  /** What a review leaves: its status, and all else as it was. */
  ghost predicate Reviews(c: Catalog, next: Catalog, t: string, status: ReviewStatus) {
    next == c.(reviews := c.reviews[t := status], ledger := next.ledger)
  }

  /** An approval outside the ledger needs a tool id and a valid approval. */
  lemma SeedingDoes(c: Catalog, t: string, a: Option<ApprovedCatalog>)
    ensures var op := SeedApprove(t, a);
      && (PlanOf(c, op).Commit? <==> t != "" && a.Some?)
      && (PlanOf(c, op).Commit? ==> Approves(c, Next(c, op), t, a.value) && Next(c, op).ledger == c.ledger)
  {
  }

  /** A review outside the ledger needs a proposal. */
  lemma ReviewDoes(c: Catalog, t: string, reject: bool)
    ensures var op := Review(t, reject);
      && (PlanOf(c, op).Commit? <==> t in c.proposals)
      && (PlanOf(c, op).Commit? ==>
            Reviews(c, Next(c, op), t, if reject then Rejected else Deferred) && Next(c, op).ledger == c.ledger)
  {
  }

  /** A rollback outside the ledger needs a history. */
  lemma RollbackDoes(c: Catalog, t: string)
    ensures var op := PlainRollback(t);
      && (PlanOf(c, op).Commit? <==> t in c.history && c.history[t] != [])
      && (PlanOf(c, op).Commit? ==> RollsBack(c, Next(c, op), t) && Next(c, op).ledger == c.ledger)
  {
  }

  /** A decision under a fresh key, or none: when it commits, and what it leaves. Approving needs a
      proposal and a valid approval, deferring and rejecting a proposal, rolling back a history.
      Exactly one entry is added to the ledger, with what was shown before and after. */
  lemma DecisionDoes(c: Catalog, op: Op)
    requires op.Decide? && (op.key != "" ==> !KeyUsed(c, op.key))
    ensures PlanOf(c, op).Commit? <==>
      match op.action
      case Approve => op.toolId in c.proposals && op.approved.Some?
      case Rollback => op.toolId in c.history && c.history[op.toolId] != []
      case _ => op.toolId in c.proposals
    ensures PlanOf(c, op).Commit? ==> var next := Next(c, op);
      && (match op.action
          case Approve => Approves(c, next, op.toolId, op.approved.value)
          case Rollback => RollsBack(c, next, op.toolId)
          case Defer => Reviews(c, next, op.toolId, Deferred)
          case Reject => Reviews(c, next, op.toolId, Rejected))
      && next.ledger == c.ledger + [AuditEvent(op.toolId, op.action, op.actor, op.key, op.at,
                                               RecordOf(c, op.toolId), RecordOf(next, op.toolId))]
  {
    hide KeyUsed;
    var edit := DecisionEdit(c, op.toolId, op.action, op.approved);
    if edit.Some? {
      EditLeavesLedger(c, op.toolId, op.action, op.approved);
      var e := AuditEvent(op.toolId, op.action, op.actor, op.key, op.at,
                          RecordOf(c, op.toolId), RecordOf(edit.value, op.toolId));
      assert Next(c, op) == edit.value.(ledger := edit.value.ledger + [e]);
      assert RecordOf(Next(c, op), op.toolId) == RecordOf(edit.value, op.toolId);
    }
  }

  lemma EditLeavesLedger(c: Catalog, t: string, action: Action, a: Option<ApprovedCatalog>)
    requires DecisionEdit(c, t, action, a).Some?
    ensures DecisionEdit(c, t, action, a).value.ledger == c.ledger
  {
  }

  /** The seed version is taken from 1 to the largest safe integer and nothing else changes; it
      becomes the larger of the two. */
  lemma SeedVersionDoes(c: Catalog, v: int)
    ensures var op := SetSeedVersion(v);
      && (PlanOf(c, op).Commit? <==> 1 <= v < 0x20_0000_0000_0000)
      && (PlanOf(c, op).Commit? ==>
            && Next(c, op) == c.(seedVersion := Next(c, op).seedVersion)
            && Next(c, op).seedVersion.Some? && Next(c, op).seedVersion.value >= v
            && (c.seedVersion.Some? ==> Next(c, op).seedVersion.value >= c.seedVersion.value)
            && (Next(c, op).seedVersion.value == v || Next(c, op).seedVersion == c.seedVersion))
  {
  }

  /** Over any run the seed version never goes back, and reaches every version that was taken. */
  lemma {:induction false} SeedVersionOnlyGrows(c: Catalog, ops: seq<Op>)
    ensures c.seedVersion.Some? ==>
      Run(c, ops).seedVersion.Some? && Run(c, ops).seedVersion.value >= c.seedVersion.value
    ensures forall i :: 0 <= i < |ops| && ops[i].SetSeedVersion? && 1 <= ops[i].version < 0x20_0000_0000_0000 ==>
      Run(c, ops).seedVersion.Some? && Run(c, ops).seedVersion.value >= ops[i].version
    decreases |ops|
  {
    hide PlanOf;
    if ops != [] {
      var last := |ops| - 1;
      SeedVersionOnlyGrows(c, ops[..last]);
      StepGrows(Run(c, ops[..last]), ops[last]);
      forall i | 0 <= i < |ops| && ops[i].SetSeedVersion? && 1 <= ops[i].version < 0x20_0000_0000_0000
        ensures Run(c, ops).seedVersion.Some? && Run(c, ops).seedVersion.value >= ops[i].version
      {
        if i < last { assert ops[i] == ops[..last][i]; }
      }
    }
  }

  lemma StepGrows(c: Catalog, op: Op)
    ensures c.seedVersion.Some? ==>
      Next(c, op).seedVersion.Some? && Next(c, op).seedVersion.value >= c.seedVersion.value
    ensures op.SetSeedVersion? && 1 <= op.version < 0x20_0000_0000_0000 ==>
      Next(c, op).seedVersion.Some? && Next(c, op).seedVersion.value >= op.version
  {
    if op.SetSeedVersion? { SeedVersionDoes(c, op.version); }
  }

  // ---------- how a commit ends ----------

  lemma RetryRenames<X>(fs: JsonStore.Fs<X>, syncFile: JsonStore.Fault, syncDir: JsonStore.Fault)
    ensures var s := JsonStore.SyncOutcome(fs, syncFile, syncDir);
      && s.fs.renamed == fs.renamed && (s.result == JsonStore.Returned ==> Files.Settled(s.fs))
      && s.result != JsonStore.ThrewPostReplace
  {
  }

  /** A commit that is not confirmed was made on disk, and one that is reported as not made was not. A
      committed catalog is on disk for good and in memory; an unconfirmed one is in memory exactly when
      it could be read back. */
  lemma CommitEnds<X>(
      mem: Snapshot<X>, fs: JsonStore.Fs<Snapshot<X>>, next: Catalog, f: CommitFaults,
      l: Store.Ledger<Snapshot<X>>)
    requires Store.Holds(fs, l)
    ensures var p := CommitOutcome(mem, fs, next, f);
      var snapshot := Snapshot(mem.tables, next);
      && p.result != NotAttempted
      && (p.result == NotCommitted ==> p.fs.renamed == fs.renamed && p.mem == mem)
      && (p.result == Committed ==> Files.Replaced(fs, p.fs, snapshot) && Files.Settled(p.fs) && p.mem == snapshot)
      && (p.result == Unconfirmed ==>
            Files.Replaced(fs, p.fs, snapshot) && p.mem == if f.reread then snapshot else mem)
      && (p.result == Died ==> Files.Replaced(fs, p.fs, snapshot) || p.fs.renamed == fs.renamed)
  {
    hide JsonStore.WriteOutcome, JsonStore.SyncOutcome, Store.Holds, Files.Settled;
    var snapshot := Snapshot(mem.tables, next);
    var w := JsonStore.WriteOutcome(fs, snapshot, true, f.write);
    Files.WriteEnds(fs, snapshot, true, f.write, l);
    Store.WriteKeeps(fs, snapshot, true, f.write, l);
    RetryRenames(w.fs, f.syncFile, f.syncDir);
  }
}
