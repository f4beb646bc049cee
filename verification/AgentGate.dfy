/** The strict gate of the agent: how much doubt there is about an action the model proposes,
    and why. What the gate reads out of the user's request and the action arrives as `Signals`. */
module AgentGate {
  import opened Text

  const HIGH_RISK: set<string> := {
    "write_file", "delete_file", "run_command", "clone_repo", "commit_push",
    "create_repo", "api_call", "query_db", "db_migrate", "inspect_db"}

  const DESTRUCTIVE: set<string> := {
    "delete_file", "run_command", "clone_repo", "commit_push", "create_repo", "api_call", "db_migrate"}

  const EVIDENCE_REQUIRED: set<string> := {
    "delete_file", "run_command", "commit_push", "create_repo", "api_call", "query_db", "db_migrate", "inspect_db"}

  const EXECUTION_CONTRACT: set<string> := {
    "delete_file", "run_command", "commit_push", "create_repo", "api_call", "query_db", "db_migrate", "inspect_db"}

  const EVIDENCE: set<string> := {
    "web_search", "read_page", "api_call", "query_db", "inspect_db", "rag_query", "read_file"}

  /** The destructive kinds that also need evidence: all of them but cloning. */
  const GUARDED: set<string> := {
    "delete_file", "run_command", "commit_push", "create_repo", "api_call", "db_migrate"}

  /** What the text classifiers say about the user's request and the action. */
  datatype Signals = Signals(
    missingFields: bool, conflictingInstructions: bool, repoUrl: bool, explicitGoal: bool, completeInputs: bool,
    constraints: bool, outputFormat: bool, adversarialIssues: bool)

  datatype Reason =
    | MissingParameters
    | SchemaMismatch
    | ConflictingInstructions
    | ConflictingToolOutput
    | LowModelConfidence
    | WeakRetrievalEvidence
    | MissingGoal
    | MissingInputs
    | MissingConstraints
    | MissingOutputFormat
    | AdversarialSelfCheck
    | UnsafeSideEffects

  /** A confidence as it was parsed: texts and JSON may spell out the values that are not
      finite, and "not a number" compares as smaller than nothing. */
  datatype Confidence = NotANumber | MinusInfinity | Finite(value: real) | PlusInfinity

  predicate Below(c: Confidence, threshold: real) {
    match c
    case NotANumber => false
    case MinusInfinity => true
    case Finite(v) => v < threshold
    case PlusInfinity => false
  }

  predicate AtLeast(c: Confidence, threshold: real) {
    c.PlusInfinity? || (c.Finite? && c.value >= threshold)
  }

  /** Everything an assessment looks at. */
  datatype Proposal = Proposal(
    kind: string, signals: Signals, confidence: Confidence, evidenceHits: int, recentConflict: string,
    confidenceThreshold: real, evidenceThreshold: int, strict: bool)

  predicate IsExplicitClone(p: Proposal) {
    Trim(p.kind) == "clone_repo" && p.signals.repoUrl
  }

  /** The grounds for doubt other than side effects, whether or not cloning excuses them. */
  predicate Ground(p: Proposal, r: Reason) {
    var kind := Trim(p.kind);
    match r
    case MissingParameters => p.signals.missingFields
    case SchemaMismatch => p.signals.missingFields
    case ConflictingInstructions => p.signals.conflictingInstructions
    case ConflictingToolOutput => p.recentConflict != ""
    case LowModelConfidence => (p.strict || kind in HIGH_RISK) && Below(p.confidence, p.confidenceThreshold)
    case WeakRetrievalEvidence => kind in EVIDENCE_REQUIRED && p.evidenceHits < p.evidenceThreshold
    case MissingGoal => kind in EXECUTION_CONTRACT && !p.signals.explicitGoal
    case MissingInputs => kind in EXECUTION_CONTRACT && !p.signals.completeInputs
    case MissingConstraints => kind in EXECUTION_CONTRACT && !p.signals.constraints
    case MissingOutputFormat => kind in EXECUTION_CONTRACT && !p.signals.outputFormat
    case AdversarialSelfCheck => p.signals.adversarialIssues
    case UnsafeSideEffects => false
  }

  /** The grounds that cloning a repository the user named excuses. */
  predicate Excusable(r: Reason) {
    r.LowModelConfidence? || r.WeakRetrievalEvidence? || r.MissingGoal? || r.MissingInputs? || r.MissingConstraints?
    || r.MissingOutputFormat?
  }

  predicate Charged(p: Proposal, r: Reason) {
    Ground(p, r) && !(Excusable(r) && IsExplicitClone(p))
  }

  /** Whether a reason counts against the action. */
  ghost predicate Doubted(p: Proposal, r: Reason) {
    if r == UnsafeSideEffects then
      Trim(p.kind) in DESTRUCTIVE && !IsExplicitClone(p) && exists o :: Charged(p, o)
    else Charged(p, r)
  }

  function Weight(r: Reason): real {
    match r
    case MissingParameters => 0.30
    case ConflictingInstructions => 0.25
    case WeakRetrievalEvidence => 0.25
    case MissingConstraints => 0.10
    case MissingOutputFormat => 0.10
    case UnsafeSideEffects => 0.15
    case _ => 0.20
  }

  function Total(reasons: seq<Reason>): (t: real)
    ensures t >= 0.0 && (t > 0.0 <==> reasons != [])
  {
    if reasons == [] then 0.0 else Total(reasons[..|reasons| - 1]) + Weight(reasons[|reasons| - 1])
  }

  ghost predicate Distinct<T>(s: seq<T>) {
    forall i, j :: 0 <= i < j < |s| ==> s[i] != s[j]
  }

  /** Keeps the first of each. */
  function Deduped<T(==)>(s: seq<T>): seq<T> {
    if s == [] then []
    else
      var before := Deduped(s[..|s| - 1]);
      if s[|s| - 1] in before then before else before + [s[|s| - 1]]
  }

  lemma {:induction false} DistinctIsDeduped<T>(s: seq<T>)
    requires Distinct(s)
    ensures Deduped(s) == s
    decreases |s|
  {
    if s != [] {
      DistinctIsDeduped(s[..|s| - 1]);
    }
  }

  /** The order in which the reasons are considered. */
  function Rank(r: Reason): nat {
    match r
    case MissingParameters => 0
    case SchemaMismatch => 1
    case ConflictingInstructions => 2
    case ConflictingToolOutput => 3
    case LowModelConfidence => 4
    case WeakRetrievalEvidence => 5
    case MissingGoal => 6
    case MissingInputs => 7
    case MissingConstraints => 8
    case MissingOutputFormat => 9
    case AdversarialSelfCheck => 10
    case UnsafeSideEffects => 11
  }

  /** The tally of the first `n` reasons. */
  ghost predicate Tallied(p: Proposal, reasons: seq<Reason>, score: real, n: nat) {
    && (forall r :: r in reasons <==> Rank(r) < n && Charged(p, r))
    && Distinct(reasons) && score == Total(reasons)
  }

  lemma OneMore(reasons: seq<Reason>, r: Reason)
    requires Distinct(reasons) && r !in reasons
    ensures Distinct(reasons + [r]) && Total(reasons + [r]) == Total(reasons) + Weight(r)
    ensures forall x :: x in reasons + [r] <==> x in reasons || x == r
  {
    assert (reasons + [r])[..|reasons|] == reasons;
  }

  lemma Tally(p: Proposal, reasons: seq<Reason>, score: real, r: Reason, weight: real)
    requires Tallied(p, reasons, score, Rank(r)) && weight == Weight(r)
    ensures Charged(p, r) ==> Tallied(p, reasons + [r], score + weight, Rank(r) + 1)
    ensures !Charged(p, r) ==> Tallied(p, reasons, score, Rank(r) + 1)
  {
    hide Charged, Weight, Rank, Total, Distinct;
    forall x: Reason ensures Rank(x) == Rank(r) ==> x == r { RankInjective(x, r); }
    OneMore(reasons, r);
  }

  lemma RankInjective(x: Reason, r: Reason)
    ensures Rank(x) == Rank(r) ==> x == r
  {
  }

  lemma TallyStarts(p: Proposal)
    ensures Tallied(p, [], 0.0, 0)
  {
  }

  lemma TallyDone(p: Proposal, reasons: seq<Reason>, score: real)
    requires Tallied(p, reasons, score, 11)
    ensures forall r :: r in reasons <==> Charged(p, r)
    ensures Distinct(reasons) && score == Total(reasons) && UnsafeSideEffects !in reasons
  {
    hide Charged;
    assert !Charged(p, UnsafeSideEffects) by { NoSideEffectGround(p); }
    forall r ensures r == UnsafeSideEffects || Rank(r) < 11 { }
  }

  lemma NoSideEffectGround(p: Proposal)
    ensures !Charged(p, UnsafeSideEffects)
  {
  }

  lemma ChargesSpelledOut(p: Proposal)
    ensures var kind := Trim(p.kind); var clone := IsExplicitClone(p); var s := p.signals;
      && (Charged(p, MissingParameters) <==> s.missingFields)
      && (Charged(p, SchemaMismatch) <==> s.missingFields)
      && (Charged(p, ConflictingInstructions) <==> s.conflictingInstructions)
      && (Charged(p, ConflictingToolOutput) <==> p.recentConflict != "")
      && (Charged(p, LowModelConfidence) <==>
            (p.strict || kind in HIGH_RISK) && Below(p.confidence, p.confidenceThreshold) && !clone)
      && (Charged(p, WeakRetrievalEvidence) <==>
            kind in EVIDENCE_REQUIRED && p.evidenceHits < p.evidenceThreshold && !clone)
      && (Charged(p, MissingGoal) <==> kind in EXECUTION_CONTRACT && !s.explicitGoal && !clone)
      && (Charged(p, MissingInputs) <==> kind in EXECUTION_CONTRACT && !s.completeInputs && !clone)
      && (Charged(p, MissingConstraints) <==> kind in EXECUTION_CONTRACT && !s.constraints && !clone)
      && (Charged(p, MissingOutputFormat) <==> kind in EXECUTION_CONTRACT && !s.outputFormat && !clone)
      && (Charged(p, AdversarialSelfCheck) <==> s.adversarialIssues)
  {
    hide Trim, HIGH_RISK, EVIDENCE_REQUIRED, EXECUTION_CONTRACT, IsExplicitClone;
  }

  /** Doubts that any kind of action can meet. */
  method GeneralDoubts(p: Proposal) returns (reasons: seq<Reason>, score: real)
    ensures Tallied(p, reasons, score, 6)
  {
    hide Tallied, Total, Charged, Trim, IsExplicitClone, HIGH_RISK, EVIDENCE_REQUIRED, EXECUTION_CONTRACT;
    ChargesSpelledOut(p);
    reasons, score := [], 0.0;
    TallyStarts(p);
    var kind := Trim(p.kind);
    var clone := IsExplicitClone(p);
    Tally(p, reasons, score, MissingParameters, 0.30);
    if p.signals.missingFields {
      reasons, score := reasons + [MissingParameters], score + 0.30;
    }
    Tally(p, reasons, score, SchemaMismatch, 0.20);
    if p.signals.missingFields {
      reasons, score := reasons + [SchemaMismatch], score + 0.20;
    }
    Tally(p, reasons, score, ConflictingInstructions, 0.25);
    if p.signals.conflictingInstructions {
      reasons, score := reasons + [ConflictingInstructions], score + 0.25;
    }
    Tally(p, reasons, score, ConflictingToolOutput, 0.20);
    if p.recentConflict != "" {
      reasons, score := reasons + [ConflictingToolOutput], score + 0.20;
    }
    Tally(p, reasons, score, LowModelConfidence, 0.20);
    if (p.strict || kind in HIGH_RISK) && Below(p.confidence, p.confidenceThreshold) {
      if !clone {
        reasons, score := reasons + [LowModelConfidence], score + 0.20;
      }
    }
    Tally(p, reasons, score, WeakRetrievalEvidence, 0.25);
    if kind in EVIDENCE_REQUIRED && p.evidenceHits < p.evidenceThreshold {
      if !clone {
        reasons, score := reasons + [WeakRetrievalEvidence], score + 0.25;
      }
    }
  }

  /** The execution contract: a goal, inputs, constraints and an output format in the request. */
  method AddContractDoubts(p: Proposal, reasons: seq<Reason>, score: real)
    returns (nextReasons: seq<Reason>, nextScore: real)
    requires Tallied(p, reasons, score, 6)
    ensures Tallied(p, nextReasons, nextScore, 10)
  {
    hide Tallied, Total, Charged, Trim, IsExplicitClone, EXECUTION_CONTRACT;
    ChargesSpelledOut(p);
    nextReasons, nextScore := reasons, score;
    var kind := Trim(p.kind);
    var clone := IsExplicitClone(p);
    Tally(p, nextReasons, nextScore, MissingGoal, 0.20);
    if kind in EXECUTION_CONTRACT && !p.signals.explicitGoal {
      if !clone {
        nextReasons, nextScore := nextReasons + [MissingGoal], nextScore + 0.20;
      }
    }
    Tally(p, nextReasons, nextScore, MissingInputs, 0.20);
    if kind in EXECUTION_CONTRACT && !p.signals.completeInputs {
      if !clone {
        nextReasons, nextScore := nextReasons + [MissingInputs], nextScore + 0.20;
      }
    }
    Tally(p, nextReasons, nextScore, MissingConstraints, 0.10);
    if kind in EXECUTION_CONTRACT && !p.signals.constraints {
      if !clone {
        nextReasons, nextScore := nextReasons + [MissingConstraints], nextScore + 0.10;
      }
    }
    Tally(p, nextReasons, nextScore, MissingOutputFormat, 0.10);
    if kind in EXECUTION_CONTRACT && !p.signals.outputFormat {
      if !clone {
        nextReasons, nextScore := nextReasons + [MissingOutputFormat], nextScore + 0.10;
      }
    }
  }

  /** The reasons listed are exactly the doubts there are, each once; the score is their
      weight, so it is positive exactly when some reason is listed. */
  method StrictDoubtAssessment(p: Proposal) returns (score: real, reasons: seq<Reason>)
    ensures forall r :: r in reasons <==> Doubted(p, r)
    ensures Distinct(reasons) && score == Total(reasons)
    ensures score > 0.0 <==> reasons != []
  {
    hide Tallied, Total, Charged, Trim, IsExplicitClone, Distinct, HIGH_RISK, EVIDENCE_REQUIRED, EXECUTION_CONTRACT,
      DESTRUCTIVE, Doubted, Deduped;
    ChargesSpelledOut(p);
    reasons, score := GeneralDoubts(p);
    reasons, score := AddContractDoubts(p, reasons, score);
    Tally(p, reasons, score, AdversarialSelfCheck, 0.20);
    if p.signals.adversarialIssues {
      reasons, score := reasons + [AdversarialSelfCheck], score + 0.20;
    }
    TallyDone(p, reasons, score);
    reasons, score := AddSideEffects(p, reasons, score);
    DistinctIsDeduped(reasons);
    reasons := Deduped(reasons);
    TotalSign(reasons);
  }

  lemma TotalSign(reasons: seq<Reason>)
    ensures Total(reasons) > 0.0 <==> reasons != []
  {
  }

  lemma SideEffectsDoubted(p: Proposal, reasons: seq<Reason>)
    requires (forall r :: r in reasons <==> Charged(p, r)) && UnsafeSideEffects !in reasons
    ensures forall r :: r != UnsafeSideEffects ==> (Doubted(p, r) <==> r in reasons)
    ensures Doubted(p, UnsafeSideEffects) <==>
      Trim(p.kind) in DESTRUCTIVE && !IsExplicitClone(p) && reasons != []
  {
    hide Charged, IsExplicitClone, DESTRUCTIVE, Trim;
    if reasons != [] { assert Charged(p, reasons[0]) by { assert reasons[0] in reasons; } }
  }

  /** A destructive action with any doubt against it is doubted for its side effects too. */
  method AddSideEffects(p: Proposal, reasons: seq<Reason>, score: real)
    returns (nextReasons: seq<Reason>, nextScore: real)
    requires forall r :: r in reasons <==> Charged(p, r)
    requires Distinct(reasons) && score == Total(reasons) && UnsafeSideEffects !in reasons
    ensures forall r :: r in nextReasons <==> Doubted(p, r)
    ensures Distinct(nextReasons) && nextScore == Total(nextReasons)
  {
    hide Charged, Doubted, Distinct, Total, IsExplicitClone, DESTRUCTIVE, Trim;
    SideEffectsDoubted(p, reasons);
    nextReasons, nextScore := reasons, score;
    if Trim(p.kind) in DESTRUCTIVE && reasons != [] && !IsExplicitClone(p) {
      OneMore(reasons, UnsafeSideEffects);
      nextReasons, nextScore := reasons + [UnsafeSideEffects], score + 0.15;
    }
  }

  /** An action the gate lets through: no unresolved conflict, and for a guarded kind enough
      evidence and confidence and a complete execution contract. */
  lemma UndoubtedAction(p: Proposal)
    requires forall r :: !Doubted(p, r)
    ensures p.recentConflict == ""
    ensures p.kind in GUARDED ==> p.evidenceHits >= p.evidenceThreshold && !Below(p.confidence, p.confidenceThreshold)
    ensures p.kind in GUARDED ==> (p.signals.explicitGoal && p.signals.completeInputs
      && p.signals.constraints && p.signals.outputFormat)
  {
    hide Trim, HIGH_RISK, EVIDENCE_REQUIRED, EXECUTION_CONTRACT, DESTRUCTIVE, GUARDED, IsExplicitClone, Charged;
    ChargesSpelledOut(p);
    assert !Doubted(p, ConflictingToolOutput);
    if p.kind in GUARDED {
      GuardedKind(p.kind);
      GuardedIsNotClone(p);
      assert !Doubted(p, WeakRetrievalEvidence) && !Doubted(p, LowModelConfidence) && !Doubted(p, MissingGoal);
      assert !Doubted(p, MissingInputs) && !Doubted(p, MissingConstraints) && !Doubted(p, MissingOutputFormat);
    }
  }

  /** A guarded action the gate lets through meets the confidence threshold exactly when its
      confidence is a number. */
  lemma ConfidenceFloorIff(p: Proposal)
    requires (forall r :: !Doubted(p, r)) && p.kind in GUARDED
    ensures AtLeast(p.confidence, p.confidenceThreshold) <==> !p.confidence.NotANumber?
  {
    hide Doubted, GUARDED;
    UndoubtedAction(p);
  }

  /** The input that shows it: a command proposed with a confidence that is not a number, and
      otherwise in order, is not doubted, whatever the threshold. */
  lemma NotANumberPasses(threshold: real, evidence: nat, strict: bool)
    ensures var p := Proposal("run_command", Signals(false, false, false, true, true, true, true, false), NotANumber,
                              evidence, "", threshold, evidence, strict);
      p.kind in GUARDED && forall r :: !Doubted(p, r)
  {
    hide Trim, HIGH_RISK, EVIDENCE_REQUIRED, EXECUTION_CONTRACT, DESTRUCTIVE, IsExplicitClone, Charged;
    var p := Proposal("run_command", Signals(false, false, false, true, true, true, true, false), NotANumber,
                      evidence, "", threshold, evidence, strict);
    ChargesSpelledOut(p);
    forall r ensures !Charged(p, r) {
      if r == UnsafeSideEffects { NoSideEffectGround(p); }
    }
  }

  lemma GuardedIsNotClone(p: Proposal)
    requires p.kind in GUARDED
    ensures !IsExplicitClone(p)
  {
    hide Trim;
    GuardedKind(p.kind);
  }

  lemma GuardedKind(kind: string)
    requires kind in GUARDED
    ensures Trim(kind) == kind && kind != "clone_repo"
    ensures kind in HIGH_RISK && kind in EVIDENCE_REQUIRED && kind in EXECUTION_CONTRACT && kind in DESTRUCTIVE
  {
    hide Trim;
    assert kind != "" && kind != "clone_repo" && 'a' <= kind[0] <= 'z' && 'a' <= kind[|kind| - 1] <= 'z' by {
      assert |"delete_file"| == 11 && |"run_command"| == 11 && |"commit_push"| == 11 && |"create_repo"| == 11;
      assert |"api_call"| == 8 && |"db_migrate"| == 10 && |"clone_repo"| == 10;
      assert "db_migrate"[0] == 'd' && "clone_repo"[0] == 'c';
    }
    TrimPlain(kind);
  }

  lemma TrimPlain(s: string)
    requires s != "" && 'a' <= s[0] <= 'z' && 'a' <= s[|s| - 1] <= 'z'
    ensures Trim(s) == s
  {
  }
}
