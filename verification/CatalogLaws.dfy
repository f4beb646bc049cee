/** What the catalog operations promise over whole runs: honest reviews, one stack per tool,
    a ledger that explains the catalog, and decisions that happen once per key. */
module CatalogLaws {
  import opened Wrappers
  import opened CatalogRecords
  import opened CatalogState

  function Run(c: Catalog, ops: seq<Op>): Catalog {
    if ops == [] then c else Next(Run(c, ops[..|ops| - 1]), ops[|ops| - 1])
  }

  lemma {:induction false} RunKeeps(c: Catalog, ops: seq<Op>)
    requires WellFormed(c)
    ensures WellFormed(Run(c, ops))
    decreases |ops|
  {
    if ops != [] {
      RunKeeps(c, ops[..|ops| - 1]);
      OperationKeeps(Run(c, ops[..|ops| - 1]), ops[|ops| - 1]);
    }
  }

  /** In every reachable catalog a tool shown as approved has an approval, and no stored
      proposal of it has a higher version. */
  lemma ApprovedMeansApproved(ops: seq<Op>, toolId: string)
    ensures match RecordOf(Run(EMPTY_CATALOG, ops), toolId)
      case None => true
      case Some(r) =>
        r.reviewStatus == Approved ==>
          r.approved.Some? && (r.proposal.Some? ==> r.proposal.value.version <= r.approved.value.version)
  {
    EmptyIsWellFormed();
    RunKeeps(EMPTY_CATALOG, ops);
    var c := Run(EMPTY_CATALOG, ops);
    assert ReviewSound(c, toolId);
  }

  // ---------- one stack per tool ----------

  /** The moves a run makes on one tool's stack. */
  function Trace(c: Catalog, ops: seq<Op>, toolId: string): seq<Delta> {
    if ops == [] then []
    else
      var before := ops[..|ops| - 1];
      Trace(c, before, toolId) + [DeltaOf(Run(c, before), ops[|ops| - 1], toolId)]
  }

  function Depth(ds: seq<Delta>): int {
    if ds == [] then 0
    else
      Depth(ds[..|ds| - 1]) + match ds[|ds| - 1] case Push(_) => 1 case Pop => -1 case Keep => 0
  }

  /** Every pop undoes an earlier push of the same trace, and every push is undone. */
  ghost predicate Bracketed(ds: seq<Delta>) {
    Depth(ds) == 0 && forall n :: 0 <= n <= |ds| ==> Depth(ds[..n]) >= 0
  }

  lemma {:induction false} StackFollowsTrace(c: Catalog, ops: seq<Op>, toolId: string)
    requires WellFormed(c)
    requires forall n :: 0 <= n <= |Trace(c, ops, toolId)| ==> Depth(Trace(c, ops, toolId)[..n]) >= 0
    ensures var s := Stack(Run(c, ops), toolId);
      && |s| == |Stack(c, toolId)| + Depth(Trace(c, ops, toolId))
      && |s| >= |Stack(c, toolId)| && s[..|Stack(c, toolId)|] == Stack(c, toolId)
    decreases |ops|
  {
    hide WellFormed, PlanOf, DeltaOf;
    var ds := Trace(c, ops, toolId);
    assert ds[..|ds|] == ds;
    if ops != [] {
      var before := ops[..|ops| - 1];
      var mid := Trace(c, before, toolId);
      forall n | 0 <= n <= |mid| ensures Depth(mid[..n]) >= 0 {
        assert mid[..n] == ds[..n];
      }
      StackFollowsTrace(c, before, toolId);
      RunKeeps(c, before);
      OperationKeeps(Run(c, before), ops[|ops| - 1]);
      assert ds[..|ds| - 1] == mid;
    }
  }

  /** However operations on many tools interleave, a tool whose own moves are well bracketed
      ends with the approval and the history it started with. */
  lemma BracketedRunRestores(c: Catalog, ops: seq<Op>, toolId: string)
    requires WellFormed(c) && Bracketed(Trace(c, ops, toolId))
    ensures Stack(Run(c, ops), toolId) == Stack(c, toolId)
    ensures Current(Run(c, ops), toolId) == Current(c, toolId)
    ensures HistoryOf(Run(c, ops), toolId) == HistoryOf(c, toolId)
  {
    hide WellFormed, PlanOf, DeltaOf;
    StackFollowsTrace(c, ops, toolId);
    StackSplits(c, toolId);
    StackSplits(Run(c, ops), toolId);
  }

  lemma StackSplits(c: Catalog, toolId: string)
    ensures var s := Stack(c, toolId);
      s != [] && Current(c, toolId) == s[|s| - 1] && HistoryOf(c, toolId) == s[..|s| - 1]
  {
  }

  /** A rollback is refused exactly when the stack is at its bottom: no approval is left. */
  lemma RollbackRefusedAtBottom(c: Catalog, toolId: string, actor: string, key: string, at: string)
    requires WellFormed(c) && (key != "" ==> !KeyUsed(c, key))
    ensures DecisionPlan(c, toolId, Rollback, actor, None, key, at).Refused? <==> toolId !in c.approved
    ensures RollbackPlan(c, toolId).Refused? <==> toolId !in c.approved
  {
    RollbackKeeps(c, toolId);
  }

  // ---------- the ledger explains the catalog ----------

  /** A tool's stack rebuilt from the ledger alone. */
  function Folded(ledger: seq<AuditEvent>, toolId: string): seq<Option<ApprovedCatalog>> {
    if ledger == [] then [None]
    else
      var e := ledger[|ledger| - 1];
      var s := Folded(ledger[..|ledger| - 1], toolId);
      if e.subjectId != toolId then s
      else
        match e.action
        case Approve => s + [if e.newValue.Some? then e.newValue.value.approved else None]
        case Rollback => if s == [] then s else s[..|s| - 1]
        case _ => s
  }

  ghost predicate Explained(c: Catalog) {
    forall t :: Stack(c, t) == Folded(c.ledger, t)
  }

  /** Approvals and rollbacks made outside the ledger. */
  predicate Unrecorded(op: Op) {
    op.SeedApprove? || op.PlainRollback?
  }

  lemma OperationExplained(c: Catalog, op: Op)
    requires WellFormed(c) && Explained(c) && !Unrecorded(op)
    ensures Explained(Next(c, op))
  {
    OperationKeeps(c, op);
    var next := Next(c, op);
    if op.Decide? && PlanOf(c, op).Commit? && !(op.key != "" && KeyUsed(c, op.key)) {
      DecisionExplained(c, op);
    } else {
      assert next.ledger == c.ledger;
    }
  }

  /** The entry a decision adds records the move it made. */
  lemma DecisionEntry(c: Catalog, op: Op)
    requires WellFormed(c) && op.Decide?
    requires PlanOf(c, op).Commit? && !(op.key != "" && KeyUsed(c, op.key))
    ensures var next := Next(c, op);
      && |next.ledger| == |c.ledger| + 1 && next.ledger[..|c.ledger|] == c.ledger
      && var e := next.ledger[|c.ledger|];
         && e.subjectId == op.toolId && e.action == op.action
         && (op.action == Approve ==>
               e.newValue.Some? && e.newValue.value.approved == op.approved && op.approved.Some?)
  {
    DecisionEditKeeps(c, op.toolId, op.action, op.approved);
    var edited := DecisionEdit(c, op.toolId, op.action, op.approved).value;
  }

  lemma DecisionExplained(c: Catalog, op: Op)
    requires WellFormed(c) && Explained(c) && op.Decide?
    requires PlanOf(c, op).Commit? && !(op.key != "" && KeyUsed(c, op.key))
    ensures Explained(Next(c, op))
  {
    hide WellFormed, PlanOf, Next, Explained, Stack;
    OperationKeeps(c, op);
    DecisionEntry(c, op);
    var next := Next(c, op);
    forall t ensures Stack(next, t) == Folded(next.ledger, t) {
      assert Stack(c, t) == Folded(c.ledger, t) by { ExplainedAt(c, t); }
      assert Stack(next, t) == Moved(Stack(c, t), DeltaOf(c, op, t));
    }
    ExplainedByAll(next);
  }

  lemma ExplainedAt(c: Catalog, t: string)
    requires Explained(c)
    ensures Stack(c, t) == Folded(c.ledger, t)
  {
  }

  lemma ExplainedByAll(c: Catalog)
    requires forall t :: Stack(c, t) == Folded(c.ledger, t)
    ensures Explained(c)
  {
  }

  /** When approvals go only through decisions, folding the ledger rebuilds every tool's
      current approval and its whole history. */
  lemma {:induction false} LedgerRebuildsCatalog(ops: seq<Op>)
    requires forall i :: 0 <= i < |ops| ==> !Unrecorded(ops[i])
    ensures Explained(Run(EMPTY_CATALOG, ops))
    decreases |ops|
  {
    if ops != [] {
      var before := ops[..|ops| - 1];
      LedgerRebuildsCatalog(before);
      EmptyIsWellFormed();
      RunKeeps(EMPTY_CATALOG, before);
      OperationExplained(Run(EMPTY_CATALOG, before), ops[|ops| - 1]);
    } else {
      forall t ensures Stack(EMPTY_CATALOG, t) == Folded(EMPTY_CATALOG.ledger, t) {
        assert Stack(EMPTY_CATALOG, t) == [None];
      }
    }
  }

  /** One operation on an explained catalog leaves it explained exactly when it is not an
      approval or a rollback committed outside the ledger. */
  lemma ExplainedIffRecorded(c: Catalog, op: Op)
    requires WellFormed(c) && Explained(c)
    ensures Explained(Next(c, op)) <==> !(Unrecorded(op) && PlanOf(c, op).Commit?)
  {
    hide WellFormed, Explained, Stack;
    if !Unrecorded(op) {
      OperationExplained(c, op);
    } else if PlanOf(c, op).Refused? {
      assert Next(c, op) == c;
    } else {
      OperationKeeps(c, op);
      UnrecordedMoves(c, op);
      assert Stack(Next(c, op), op.toolId) != Folded(Next(c, op).ledger, op.toolId) by { ExplainedAt(c, op.toolId); }
      if Explained(Next(c, op)) { ExplainedAt(Next(c, op), op.toolId); }
    }
  }

  lemma UnrecordedMoves(c: Catalog, op: Op)
    requires WellFormed(c) && Unrecorded(op) && PlanOf(c, op).Commit?
    ensures Next(c, op).ledger == c.ledger
    ensures Moved(Stack(c, op.toolId), DeltaOf(c, op, op.toolId)) != Stack(c, op.toolId)
  {
  }

  // ---------- once per key ----------

  lemma LedgerOnlyGrows(c: Catalog, op: Op)
    ensures c.ledger <= Next(c, op).ledger
  {
  }

  /** A committed decision leaves its key in the ledger, so that a second decision under that
      key, whatever it asks for, commits the catalog unchanged. */
  lemma DecisionRecordsKey(c: Catalog, op: Op)
    requires op.Decide? && op.key != "" && PlanOf(c, op).Commit?
    ensures KeyUsed(Next(c, op), op.key)
    ensures forall again: Op :: again.Decide? && again.key == op.key ==>
      PlanOf(Next(c, op), again) == Commit(Next(c, op))
  {
    if !KeyUsed(c, op.key) {
      var next := Next(c, op);
      assert next.ledger[|next.ledger| - 1].key == op.key;
    }
  }

  /** Through any run, a decision under a used key neither adds a ledger entry nor changes
      the catalog, and no key ever has two entries. */
  lemma {:induction false} ReplaysChangeNothing(c: Catalog, ops: seq<Op>, replay: Op)
    requires WellFormed(c) && replay.Decide? && replay.key != "" && KeyUsed(c, replay.key)
    ensures Next(Run(c, ops), replay) == Run(c, ops)
    ensures UniqueKeys(Run(c, ops).ledger)
    decreases |ops|
  {
    RunKeeps(c, ops);
    KeyStaysUsed(c, ops, replay.key);
  }

  lemma {:induction false} KeyStaysUsed(c: Catalog, ops: seq<Op>, key: string)
    requires KeyUsed(c, key)
    ensures KeyUsed(Run(c, ops), key)
    decreases |ops|
  {
    if ops != [] {
      var before := ops[..|ops| - 1];
      KeyStaysUsed(c, before, key);
      var mid := Run(c, before);
      LedgerOnlyGrows(mid, ops[|ops| - 1]);
      var i :| 0 <= i < |mid.ledger| && mid.ledger[i].key == key;
      assert Run(c, ops).ledger[i].key == key;
    }
  }
}
