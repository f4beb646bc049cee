/** The catalog half of the registry: proposals, approvals with their history, reviews and
    the decision ledger, and the operations that draft the next catalog. */
module CatalogState {
  import opened Wrappers
  import opened CatalogRecords

  datatype ReviewStatus = Approved | Pending | Deferred | Rejected

  datatype Action = Approve | Defer | Reject | Rollback

  datatype CatalogRecord = CatalogRecord(
    toolId: string,
    proposal: Option<CatalogProposal>,
    approved: Option<ApprovedCatalog>,
    reviewStatus: ReviewStatus)

  /** One entry of the decision ledger. An empty key means the caller gave none. */
  datatype AuditEvent = AuditEvent(
    subjectId: string,
    action: Action,
    actor: string,
    key: string,
    timestamp: string,
    previousValue: Option<CatalogRecord>,
    newValue: Option<CatalogRecord>)

  datatype Catalog = Catalog(
    proposals: map<string, CatalogProposal>,
    approved: map<string, ApprovedCatalog>,
    seedVersion: Option<nat>,
    reviews: map<string, ReviewStatus>,
    history: map<string, seq<Option<ApprovedCatalog>>>,
    ledger: seq<AuditEvent>)

  const EMPTY_CATALOG := Catalog(map[], map[], None, map[], map[], [])

  function Lookup<V>(m: map<string, V>, k: string): Option<V> {
    if k in m then Some(m[k]) else None
  }

  function HistoryOf(c: Catalog, toolId: string): seq<Option<ApprovedCatalog>> {
    Lookup(c.history, toolId).GetOr([])
  }

  function ProposedVersion(c: Catalog, toolId: string): nat {
    if toolId in c.proposals then c.proposals[toolId].version else 0
  }

  /** The record shown for a tool. The program also runs the stored values through their
      validators here; CatalogSnapshot.RevalidationChangesNothing shows that to be the
      identity on every reachable catalog. */
  function RecordOf(c: Catalog, toolId: string): Option<CatalogRecord> {
    var proposal := Lookup(c.proposals, toolId);
    var approved := Lookup(c.approved, toolId);
    if proposal.None? && approved.None? then None
    else
      var unreviewed :=
        if proposal.Some? && (approved.None? || proposal.value.version > approved.value.version)
        then Pending else Approved;
      Some(CatalogRecord(
        toolId,
        proposal,
        approved,
        Lookup(c.reviews, toolId).GetOr(unreviewed)))
  }

  predicate KeyUsed(c: Catalog, key: string) {
    exists i :: 0 <= i < |c.ledger| && c.ledger[i].key == key
  }

  // ---------- edits of a draft ----------

  function ApplyApproval(c: Catalog, toolId: string, valid: ApprovedCatalog): Catalog {
    c.(history := c.history[toolId := HistoryOf(c, toolId) + [Current(c, toolId)]],
       approved := c.approved[toolId := valid],
       reviews := c.reviews[toolId := if ProposedVersion(c, toolId) > valid.version then Pending else Approved])
  }

  function ApplyReview(c: Catalog, toolId: string, status: ReviewStatus): Catalog {
    c.(reviews := c.reviews[toolId := status])
  }

  function ApplyRollback(c: Catalog, toolId: string): Option<Catalog> {
    var history := HistoryOf(c, toolId);
    if history == [] then None
    else
      var previous := history[|history| - 1];
      Some(c.(
        approved := if previous.Some? then c.approved[toolId := previous.value] else c.approved - {toolId},
        history := c.history[toolId := history[..|history| - 1]],
        reviews := c.reviews[toolId :=
          if previous.Some? && ProposedVersion(c, toolId) <= previous.value.version then Approved else Pending]))
  }

  // ---------- operations ----------

  /** What an operation asks for: nothing (it returns null or throws before writing), or a
      commit of `next`. */
  datatype Plan = Refused | Commit(next: Catalog)

  predicate CanSubmit(c: Catalog, toolId: string, normalized: CatalogProposal) {
    var approved := Current(c, toolId);
    if approved.None? || normalized.version > approved.value.version then true
    else if normalized.version < approved.value.version then false
    else Lookup(c.proposals, toolId) == Some(normalized)
  }

  function SubmitPlan(c: Catalog, toolId: string, valid: Option<CatalogProposal>): Plan {
    if toolId == "" || valid.None? || !CanSubmit(c, toolId, valid.value) then Refused
    else
      var changed := Lookup(c.proposals, toolId) != valid;
      Commit(c.(
        proposals := c.proposals[toolId := valid.value],
        reviews := if changed then c.reviews[toolId := Pending] else c.reviews))
  }

  function SeedApprovalPlan(c: Catalog, toolId: string, valid: Option<ApprovedCatalog>): Plan {
    if toolId == "" || valid.None? then Refused else Commit(ApplyApproval(c, toolId, valid.value))
  }

  function ReviewPlan(c: Catalog, toolId: string, status: ReviewStatus): Plan {
    if toolId !in c.proposals then Refused else Commit(ApplyReview(c, toolId, status))
  }

  function RollbackPlan(c: Catalog, toolId: string): Plan {
    match ApplyRollback(c, toolId) case None => Refused case Some(next) => Commit(next)
  }

  function SeedVersionPlan(c: Catalog, version: int): Plan {
    if !(1 <= version <= MAX_SAFE_INTEGER) then Refused
    else
      var current: nat := c.seedVersion.GetOr(0);
      Commit(c.(seedVersion := Some(if current > version then current else version)))
  }

  /** The edit a decision makes, before its ledger entry is added. */
  function DecisionEdit(c: Catalog, toolId: string, action: Action, valid: Option<ApprovedCatalog>): Option<Catalog> {
    match action
    case Approve =>
      if toolId !in c.proposals || valid.None? then None
      else Some(ApplyApproval(c, toolId, valid.value))
    case Rollback => ApplyRollback(c, toolId)
    case Defer => if toolId !in c.proposals then None else Some(ApplyReview(c, toolId, Deferred))
    case Reject => if toolId !in c.proposals then None else Some(ApplyReview(c, toolId, Rejected))
  }

  /** A decision whose key the ledger already holds commits the catalog unchanged. */
  function DecisionPlan(
      c: Catalog, toolId: string, action: Action, actor: string, valid: Option<ApprovedCatalog>,
      key: string, at: string): Plan
  {
    if key != "" && KeyUsed(c, key) then Commit(c)
    else
      match DecisionEdit(c, toolId, action, valid)
      case None => Refused
      case Some(next) =>
        var event := AuditEvent(toolId, action, actor, key, at, RecordOf(c, toolId), RecordOf(next, toolId));
        Commit(next.(ledger := next.ledger + [event]))
  }

  /** Proposals and approvals reach an operation through their validator; `None` is a value
      the validator turned down. */
  datatype Op =
    | Submit(toolId: string, proposal: Option<CatalogProposal>)
    | SeedApprove(toolId: string, approved: Option<ApprovedCatalog>)
    | Review(toolId: string, reject: bool)
    | PlainRollback(toolId: string)
    | SetSeedVersion(version: int)
    | Decide(toolId: string, action: Action, actor: string, approved: Option<ApprovedCatalog>,
             key: string, at: string)

  function PlanOf(c: Catalog, op: Op): Plan {
    match op
    case Submit(t, p) => SubmitPlan(c, t, p)
    case SeedApprove(t, a) => SeedApprovalPlan(c, t, a)
    case Review(t, reject) => ReviewPlan(c, t, if reject then Rejected else Deferred)
    case PlainRollback(t) => RollbackPlan(c, t)
    case SetSeedVersion(v) => SeedVersionPlan(c, v)
    case Decide(t, action, actor, approved, key, at) => DecisionPlan(c, t, action, actor, approved, key, at)
  }

  // ---------- the invariant ----------

  function Current(c: Catalog, toolId: string): Option<ApprovedCatalog> {
    Lookup(c.approved, toolId)
  }

  /** A tool's approvals, oldest first, with its current one on top. */
  function Stack(c: Catalog, toolId: string): seq<Option<ApprovedCatalog>> {
    HistoryOf(c, toolId) + [Current(c, toolId)]
  }

  /** A stack rests on one "no approval" and holds approvals from there up. */
  ghost predicate StackShape(s: seq<Option<ApprovedCatalog>>) {
    s != [] && s[0] == None && forall i :: 0 < i < |s| ==> s[i].Some?
  }

  ghost predicate ReviewSound(c: Catalog, toolId: string) {
    toolId in c.reviews && c.reviews[toolId] == Approved ==>
      toolId in c.approved && ProposedVersion(c, toolId) <= c.approved[toolId].version
  }

  ghost predicate UniqueKeys(ledger: seq<AuditEvent>) {
    forall i, j :: 0 <= i < j < |ledger| && ledger[i].key != "" ==> ledger[i].key != ledger[j].key
  }

  ghost predicate WellFormed(c: Catalog) {
    && (forall t :: t in c.approved || t in c.history || t in c.proposals || t in c.reviews ==> t != "")
    && (forall t :: StackShape(Stack(c, t)))
    && (forall t :: ReviewSound(c, t))
    && UniqueKeys(c.ledger)
  }

  lemma EmptyIsWellFormed()
    ensures WellFormed(EMPTY_CATALOG)
  {
  }

  lemma ApprovalKeeps(c: Catalog, toolId: string, valid: ApprovedCatalog)
    requires WellFormed(c) && toolId != ""
    ensures WellFormed(ApplyApproval(c, toolId, valid))
    ensures forall t :: Stack(ApplyApproval(c, toolId, valid), t) ==
                        if t == toolId then Stack(c, t) + [Some(valid)] else Stack(c, t)
  {
    var next := ApplyApproval(c, toolId, valid);
    forall t
      ensures Stack(next, t) == if t == toolId then Stack(c, t) + [Some(valid)] else Stack(c, t)
      ensures StackShape(Stack(next, t)) && ReviewSound(next, t)
    {
      assert StackShape(Stack(c, t)) && ReviewSound(c, t);
    }
  }

  /** Rolling back pops the stack, and is refused exactly when only its bottom is left. */
  lemma RollbackKeeps(c: Catalog, toolId: string)
    requires WellFormed(c)
    ensures ApplyRollback(c, toolId).None? <==> Stack(c, toolId) == [None]
    ensures ApplyRollback(c, toolId).None? <==> toolId !in c.approved
    ensures match ApplyRollback(c, toolId)
      case None => true
      case Some(next) => WellFormed(next) && forall t ::
        Stack(next, t) == if t == toolId then Stack(c, t)[..|Stack(c, t)| - 1] else Stack(c, t)
  {
    assert StackShape(Stack(c, toolId));
    var history := HistoryOf(c, toolId);
    assert Stack(c, toolId)[|history|] == Current(c, toolId);
    if history == [] {
      assert Stack(c, toolId) == [None];
    } else {
      var next := ApplyRollback(c, toolId).value;
      var previous := history[|history| - 1];
      assert Stack(next, toolId) == Stack(c, toolId)[..|history|] by {
        assert HistoryOf(next, toolId) == history[..|history| - 1];
        assert Current(next, toolId) == previous;
      }
      forall t
        ensures Stack(next, t) == if t == toolId then Stack(c, t)[..|Stack(c, t)| - 1] else Stack(c, t)
        ensures StackShape(Stack(next, t)) && ReviewSound(next, t)
      {
        assert StackShape(Stack(c, t)) && ReviewSound(c, t);
      }
    }
  }

  lemma ReviewKeeps(c: Catalog, toolId: string, status: ReviewStatus)
    requires WellFormed(c) && toolId != "" && status != Approved
    ensures WellFormed(ApplyReview(c, toolId, status))
    ensures forall t :: Stack(ApplyReview(c, toolId, status), t) == Stack(c, t)
  {
    var next := ApplyReview(c, toolId, status);
    forall t ensures Stack(next, t) == Stack(c, t) && ReviewSound(next, t) {
      assert StackShape(Stack(c, t)) && ReviewSound(c, t);
    }
  }

  /** A submission is refused exactly when it has no tool id, did not validate, or is stale: older
      than the approval, or as old and not the proposal on record. */
  lemma SubmitKeeps(c: Catalog, toolId: string, proposal: Option<CatalogProposal>)
    requires WellFormed(c)
    ensures SubmitPlan(c, toolId, proposal).Refused? <==>
      || toolId == ""
      || proposal.None?
      || (toolId in c.approved && proposal.value.version < c.approved[toolId].version)
      || (toolId in c.approved && proposal.value.version == c.approved[toolId].version
          && !(toolId in c.proposals && c.proposals[toolId] == proposal.value))
    ensures match SubmitPlan(c, toolId, proposal)
      case Refused => true
      case Commit(next) => WellFormed(next) && forall t :: Stack(next, t) == Stack(c, t)
  {
    match SubmitPlan(c, toolId, proposal)
    case Refused =>
    case Commit(next) =>
      forall t ensures Stack(next, t) == Stack(c, t) && ReviewSound(next, t) {
        assert StackShape(Stack(c, t)) && ReviewSound(c, t);
      }
  }

  // ---------- what one operation does to each stack ----------

  datatype Delta = Push(approval: ApprovedCatalog) | Pop | Keep

  function Moved(s: seq<Option<ApprovedCatalog>>, d: Delta): seq<Option<ApprovedCatalog>> {
    match d
    case Push(a) => s + [Some(a)]
    case Pop => if s == [] then s else s[..|s| - 1]
    case Keep => s
  }

  /** The stack move an operation makes for a tool, if it commits at all. */
  function DeltaOf(c: Catalog, op: Op, toolId: string): Delta {
    if PlanOf(c, op).Refused? then Keep
    else
      match op
      case SeedApprove(t, a) =>
        if t == toolId && a.Some? then Push(a.value) else Keep
      case PlainRollback(t) => if t == toolId then Pop else Keep
      case Decide(t, action, _, a, key, _) =>
        if t != toolId || (key != "" && KeyUsed(c, key)) then Keep
        else if action == Approve && a.Some? then Push(a.value)
        else if action == Rollback then Pop
        else Keep
      case _ => Keep
  }

  function Next(c: Catalog, op: Op): Catalog {
    match PlanOf(c, op) case Refused => c case Commit(next) => next
  }

  lemma DecisionEditKeeps(c: Catalog, toolId: string, action: Action, approved: Option<ApprovedCatalog>)
    requires WellFormed(c)
    ensures match DecisionEdit(c, toolId, action, approved)
      case None => true
      case Some(next) =>
        && WellFormed(next) && next.ledger == c.ledger
        && (action == Approve ==> approved.Some?)
        && forall t :: Stack(next, t) ==
             if t != toolId then Stack(c, t)
             else Moved(Stack(c, t),
                        if action == Approve then Push(approved.value)
                        else if action == Rollback then Pop else Keep)
  {
    if DecisionEdit(c, toolId, action, approved).Some? {
      match action
      case Approve => ApprovalKeeps(c, toolId, approved.value);
      case Rollback => RollbackKeeps(c, toolId);
      case Defer => ReviewKeeps(c, toolId, Deferred);
      case Reject => ReviewKeeps(c, toolId, Rejected);
    }
  }

  lemma LedgerEntryKeeps(c: Catalog, e: AuditEvent)
    requires WellFormed(c) && (e.key != "" ==> !KeyUsed(c, e.key))
    ensures WellFormed(c.(ledger := c.ledger + [e]))
    ensures forall t :: Stack(c.(ledger := c.ledger + [e]), t) == Stack(c, t)
  {
    var next := c.(ledger := c.ledger + [e]);
    forall t ensures Stack(next, t) == Stack(c, t) && ReviewSound(next, t) {
      assert StackShape(Stack(c, t)) && ReviewSound(c, t);
    }
  }

  /** Every operation keeps the catalog well formed and moves each tool's stack by its delta:
      approvals push, rollbacks pop, everything else and every refusal or replay keeps. */
  lemma OperationKeeps(c: Catalog, op: Op)
    requires WellFormed(c)
    ensures WellFormed(Next(c, op))
    ensures forall t :: Stack(Next(c, op), t) == Moved(Stack(c, t), DeltaOf(c, op, t))
  {
    hide SubmitPlan, SeedVersionPlan, ApplyApproval, ApplyReview, ApplyRollback, StackShape, ReviewSound,
      UniqueKeys;
    match op
    case Submit(t, p) => SubmitKeeps(c, t, p);
    case SeedApprove(t, a) =>
      if PlanOf(c, op).Commit? { ApprovalKeeps(c, t, a.value); }
    case Review(t, reject) =>
      if PlanOf(c, op).Commit? { ReviewKeeps(c, t, if reject then Rejected else Deferred); }
    case PlainRollback(t) => RollbackKeeps(c, t);
    case SetSeedVersion(v) => SeedVersionKeeps(c, v);
    case Decide(t, action, actor, approved, key, at) => DecisionKeeps(c, op);
  }

  lemma SeedVersionKeeps(c: Catalog, v: int)
    requires WellFormed(c)
    ensures match SeedVersionPlan(c, v)
      case Refused => true
      case Commit(next) => WellFormed(next) && forall t :: Stack(next, t) == Stack(c, t)
  {
    match SeedVersionPlan(c, v)
    case Refused =>
    case Commit(next) =>
      forall t ensures Stack(next, t) == Stack(c, t) && ReviewSound(next, t) {
        assert StackShape(Stack(c, t)) && ReviewSound(c, t);
      }
  }

  lemma DecisionKeeps(c: Catalog, op: Op)
    requires WellFormed(c) && op.Decide?
    ensures WellFormed(Next(c, op))
    ensures forall t :: Stack(Next(c, op), t) == Moved(Stack(c, t), DeltaOf(c, op, t))
  {
    hide StackShape, ReviewSound, DecisionEdit, RecordOf;
    if op.key == "" || !KeyUsed(c, op.key) {
      DecisionEditKeeps(c, op.toolId, op.action, op.approved);
      match DecisionEdit(c, op.toolId, op.action, op.approved)
      case None =>
      case Some(next) =>
        var event := AuditEvent(op.toolId, op.action, op.actor, op.key, op.at,
                                RecordOf(c, op.toolId), RecordOf(next, op.toolId));
        LedgerEntryKeeps(next, event);
    }
  }
}
