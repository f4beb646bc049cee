/** The agent's bounded loop. Whatever the model answers, the classifiers say and the tools
    return reaches the loop as one arbitrary `Turn` per iteration. */
module AgentLoop {
  import opened Wrappers
  import opened Text
  import opened AgentGate

  const MAX_LOOP := 24
  const CONTEXT_RESULT_MAX := 1200
  const CRITIQUE_THRESHOLD := 0.75
  const CONFIDENCE_FLOOR := 0.95

  // ---------- what flows through a run ----------

  /** What a reply says about its confidence: nothing; `null`, zero or something else that
      counts as false; something no number can be read from; or a number, perhaps as a text. */
  datatype Stated = Unstated | Falsy | Unparseable | States(confidence: Confidence)

  /** `countsReadable` is whether the counts a goal or a simulation is given can be read as numbers. */
  datatype Action = Action(
    kind: string, content: string, url: string, destPath: string, path: string, cmd: string, query: string,
    name: string, repoUrl: string, confidence: Stated, countsReadable: bool)

  /** The first 800 characters of the fields that tell calls apart. */
  function Signature(a: Action): string {
    var joined := a.kind + "|" + a.url + "|" + a.destPath + "|" + a.path + "|" + a.cmd + "|" + a.query + "|" + a.name
                  + "|" + a.repoUrl;
    if |joined| <= 800 then joined else joined[..800]
  }

  /** What a tool gave back: a structured result from a built-in, or plain text. */
  datatype ToolRun = Builtin(status: string, text: string) | Plain(text: string)

  datatype Approval = NotRequired | Consumed | Warned | Withheld

  /** How far an action had come when an exception cut it off. */
  datatype Progress = Untouched | Started | Reported

  /** An exception that nothing catches, other than those that the turn's other fields account
      for: before the action is carried out, or meanwhile. */
  datatype Raised = Nothing | WhileReading | WhileServing(upto: Progress)

  /** `contentIsText` is whether the content of the model's first reply is a text, or missing. */
  datatype Turn = Turn(
    raised: Raised, contentIsText: bool, groupTimedOut: bool,
    overTime: bool, stopped: bool, exhausted: bool, ensemble: bool, fallback: bool,
    action: Action, metaConfidence: Stated, signals: Signals,
    personaAllowed: bool, blocked: bool, approval: Approval,
    builtinStatus: Option<string>, text: string, native: bool,
    subTools: nat, subFailures: nat, revised: string)

  datatype Role = User | Assistant | ToolRole

  datatype Body =
    | Says(text: string)
    | Calls(action: Action)
    | NativeCall(action: Action)
    | Asks(reasons: seq<Reason>)
    | Nudge(text: string)

  datatype Message = Message(role: Role, body: Body)

  datatype Event =
    | Note(kind: string)
    | Refused(action: Action)
    | Clarify(reasons: seq<Reason>)
    | GroupStart(action: Action)
    | ToolStart(action: Action, confidence: Confidence)
    | ToolResult(action: Action, run: ToolRun)
    | Done(content: string, history: seq<Message>)

  /** `strict`, the two thresholds and the limits as the configuration holds them. */
  datatype Config = Config(
    strict: bool, confidenceThreshold: real, evidenceThreshold: int, maxToolCalls: nat, testSession: bool)

  /** The variables of one run. `passed` records, for an observer, the actions that got past
      the repeat guard. */
  datatype Run = Run(
    messages: seq<Message>, events: seq<Event>, evidenceHits: nat, recentConflict: string,
    attempts: map<string, nat>, toolCalls: nat, filesRead: nat, passed: seq<Action>)

  // ---------- reading results ----------

  predicate Contains(text: string, part: string) {
    exists i :: 0 <= i <= |text| && part <= text[i..]
  }

  function BlockerReason(kind: string, text: string): string {
    var t := Lower(text);
    if Contains(t, "host mount paths are not available in this runtime") then "runtime_path_mismatch"
    else if Contains(t, "packfile cannot be mapped") || Contains(t, "cannot allocate memory")
    then "runtime_clone_limits"
    else if kind == "clone_repo"
            && (Contains(t, "both api fetch and git clone failed") || Contains(t, "operation timed out")
                || Contains(t, "timed out")) then "runtime_clone_limits"
    else ""
  }

  predicate StatusFailed(status: string) {
    Lower(status) == "error" || Lower(status) == "blocked"
  }

  predicate SoundsFailed(text: string) {
    Contains(Lower(text), "failed") || Contains(Lower(text), "error") || Contains(Lower(text), "not found")
  }

  /** A result that leaves a conflict behind. */
  predicate Conflicts(a: Action, run: ToolRun) {
    || BlockerReason(a.kind, run.text) != ""
    || (if run.Builtin? then StatusFailed(run.status) else a.kind !in EVIDENCE && SoundsFailed(run.text))
  }

  // ---------- what a run keeps ----------

  predicate Starts(e: Event) {
    e.ToolStart? || e.GroupStart?
  }

  predicate GivesEvidence(e: Event) {
    e.ToolResult? && e.action.kind in EVIDENCE && !Conflicts(e.action, e.run)
  }

  ghost predicate Evidenced(events: seq<Event>) {
    exists i :: 0 <= i < |events| && GivesEvidence(events[i])
  }

  /** Guarded actions start only once an evidence action has run, and only with confidence. */
  ghost predicate GuardedStarts(events: seq<Event>) {
    forall i :: 0 <= i < |events| && events[i].ToolStart? && events[i].action.kind in GUARDED ==>
      Evidenced(events[..i]) && !Below(events[i].confidence, CONFIDENCE_FLOOR)
  }

  predicate Conflicted(e: Event) {
    e.ToolResult? && Conflicts(e.action, e.run)
  }

  ghost predicate NoConflict(events: seq<Event>) {
    forall i :: 0 <= i < |events| ==> !Conflicted(events[i])
  }

  /** Nothing is dispatched after a conflicting result. */
  ghost predicate ConflictIsLast(events: seq<Event>) {
    forall i, j :: 0 <= i < j < |events| && Conflicted(events[i]) ==> !Starts(events[j])
  }

  function ToolStarts(events: seq<Event>): nat {
    if events == [] then 0
    else ToolStarts(events[..|events| - 1]) + if events[|events| - 1].ToolStart? then 1 else 0
  }

  /** No signature gets past the guard three times, and a listing only the first time. */
  ghost predicate RepeatsBounded(passed: seq<Action>) {
    && (forall i, j :: 0 <= i < j < |passed| && passed[j].kind == "list_files" ==>
          Signature(passed[i]) != Signature(passed[j]))
    && (forall i, j, k :: 0 <= i < j < k < |passed| ==>
          !(Signature(passed[i]) == Signature(passed[j]) == Signature(passed[k])))
  }

  ghost predicate Counted(attempts: map<string, nat>, passed: seq<Action>) {
    && (forall i :: 0 <= i < |passed| ==>
          Signature(passed[i]) in attempts && attempts[Signature(passed[i])] >= 1)
    && (forall i, j :: 0 <= i < j < |passed| && Signature(passed[i]) == Signature(passed[j]) ==>
          attempts[Signature(passed[i])] >= 2)
  }

  ghost predicate NotDone(events: seq<Event>) {
    forall i :: 0 <= i < |events| ==> !events[i].Done?
  }

  ghost predicate Prefixed(injected: seq<Message>, messages: seq<Message>) {
    |injected| <= |messages| && messages[..|injected|] == injected
  }

  /** What holds of the events so far, between any two of them. */
  ghost predicate Orderly(cfg: Config, events: seq<Event>, toolCalls: nat) {
    && GuardedStarts(events)
    && (cfg.strict ==> ConflictIsLast(events))
    && ToolStarts(events) <= toolCalls
    && (cfg.maxToolCalls > 0 ==> ToolStarts(events) <= cfg.maxToolCalls)
  }

  ghost predicate Sound(cfg: Config, injected: seq<Message>, r: Run) {
    && Prefixed(injected, r.messages)
    && NotDone(r.events) && Orderly(cfg, r.events, r.toolCalls)
    && (r.evidenceHits > 0 ==> Evidenced(r.events))
    && (cfg.strict && r.recentConflict == "" ==> NoConflict(r.events))
    && RepeatsBounded(r.passed) && Counted(r.attempts, r.passed)
  }

  /** The state in which the gate lets an action go on. */
  ghost predicate LetThrough(cfg: Config, r: Run, a: Action, confidence: Confidence) {
    && (a.kind in GUARDED ==> r.evidenceHits >= 1 && !Below(confidence, CONFIDENCE_FLOOR))
    && (cfg.strict ==> r.recentConflict == "")
  }

  predicate Quiet(e: Event) {
    e.Note? || e.Refused? || e.Clarify?
  }

  lemma PrefixEvidenced(events: seq<Event>, n: nat)
    requires n <= |events| && Evidenced(events[..n])
    ensures Evidenced(events)
  {
    var i :| 0 <= i < n && GivesEvidence(events[..n][i]);
    assert GivesEvidence(events[i]);
  }

  lemma AppendOrderly(cfg: Config, events: seq<Event>, toolCalls: nat, e: Event)
    requires Orderly(cfg, events, toolCalls) && !e.ToolStart?
    requires e.GroupStart? && cfg.strict ==> NoConflict(events)
    ensures Orderly(cfg, events + [e], toolCalls)
  {
    hide Conflicted, GivesEvidence;
    var next := events + [e];
    assert next[..|next| - 1] == events;
    forall i | 0 <= i < |next| && next[i].ToolStart? && next[i].action.kind in GUARDED
      ensures Evidenced(next[..i]) && !Below(next[i].confidence, CONFIDENCE_FLOOR)
    {
      assert next[..i] == events[..i];
    }
  }

  lemma StartOrderly(cfg: Config, events: seq<Event>, toolCalls: nat, a: Action, confidence: Confidence)
    requires Orderly(cfg, events, toolCalls)
    requires a.kind in GUARDED ==> Evidenced(events) && !Below(confidence, CONFIDENCE_FLOOR)
    requires cfg.strict ==> NoConflict(events)
    requires cfg.maxToolCalls > 0 ==> toolCalls < cfg.maxToolCalls
    ensures Orderly(cfg, events + [ToolStart(a, confidence)], toolCalls + 1)
  {
    hide Conflicts, GivesEvidence, GUARDED;
    var next := events + [ToolStart(a, confidence)];
    assert next[..|next| - 1] == events;
    forall i | 0 <= i < |next| && next[i].ToolStart? && next[i].action.kind in GUARDED
      ensures Evidenced(next[..i]) && !Below(next[i].confidence, CONFIDENCE_FLOOR)
    {
      assert next[..i] == events[..i];
    }
  }

  lemma QuietKeeps(cfg: Config, injected: seq<Message>, r: Run, e: Event)
    requires Sound(cfg, injected, r) && Quiet(e)
    ensures Sound(cfg, injected, r.(events := r.events + [e]))
  {
    hide Conflicts, Orderly, RepeatsBounded, Counted;
    AppendOrderly(cfg, r.events, r.toolCalls, e);
    if r.evidenceHits > 0 { PrefixStays(r.events, e); }
  }

  lemma PrefixStays(events: seq<Event>, e: Event)
    requires Evidenced(events)
    ensures Evidenced(events + [e])
  {
    assert (events + [e])[..|events|] == events;
    PrefixEvidenced(events + [e], |events|);
  }

  lemma SayKeeps(cfg: Config, injected: seq<Message>, r: Run, said: seq<Message>)
    requires Sound(cfg, injected, r)
    ensures Sound(cfg, injected, r.(messages := r.messages + said))
  {
    hide Orderly, RepeatsBounded, Counted, NoConflict, Evidenced, NotDone;
  }

  lemma GroupKeeps(cfg: Config, injected: seq<Message>, r: Run, a: Action, more: nat)
    requires Sound(cfg, injected, r) && (cfg.strict ==> r.recentConflict == "")
    ensures Sound(cfg, injected, r.(events := r.events + [GroupStart(a)], toolCalls := r.toolCalls + more))
  {
    hide Conflicts, GuardedStarts, ConflictIsLast, RepeatsBounded, Counted;
    AppendOrderly(cfg, r.events, r.toolCalls, GroupStart(a));
    if r.evidenceHits > 0 { PrefixStays(r.events, GroupStart(a)); }
  }

  lemma StartKeeps(cfg: Config, injected: seq<Message>, r: Run, a: Action, confidence: Confidence)
    requires Sound(cfg, injected, r) && LetThrough(cfg, r, a, confidence)
    requires cfg.maxToolCalls > 0 ==> r.toolCalls < cfg.maxToolCalls
    ensures Sound(cfg, injected, r.(events := r.events + [ToolStart(a, confidence)], toolCalls := r.toolCalls + 1))
  {
    hide Conflicts, Orderly, RepeatsBounded, Counted, GUARDED;
    StartOrderly(cfg, r.events, r.toolCalls, a, confidence);
    if r.evidenceHits > 0 { PrefixStays(r.events, ToolStart(a, confidence)); }
  }

  /** A result enters the events together with the counters it moves. */
  lemma ResultKeeps(cfg: Config, injected: seq<Message>, r: Run, a: Action, run: ToolRun, hits: nat, conflict: string)
    requires Sound(cfg, injected, r) && (cfg.strict ==> r.recentConflict == "")
    requires hits == r.evidenceHits || GivesEvidence(ToolResult(a, run))
    requires Conflicts(a, run) ==> conflict != ""
    ensures Sound(cfg, injected,
              r.(events := r.events + [ToolResult(a, run)], evidenceHits := hits, recentConflict := conflict))
  {
    hide Conflicts, Orderly, RepeatsBounded, Counted;
    var next := r.events + [ToolResult(a, run)];
    AppendOrderly(cfg, r.events, r.toolCalls, ToolResult(a, run));
    if r.evidenceHits > 0 { PrefixStays(r.events, ToolResult(a, run)); }
    if GivesEvidence(ToolResult(a, run)) { assert GivesEvidence(next[|r.events|]); }
  }

  lemma PassKeeps(cfg: Config, injected: seq<Message>, r: Run, a: Action)
    requires Sound(cfg, injected, r)
    ensures var s := Signature(a);
      var n := Attempts(r, a) + 1;
      && Sound(cfg, injected, r.(attempts := r.attempts[s := n]))
      && (n <= (if a.kind == "list_files" then 1 else 2) ==>
            Sound(cfg, injected, r.(attempts := r.attempts[s := n], passed := r.passed + [a])))
  {
    hide Orderly, NoConflict, Evidenced, NotDone, Prefixed, Signature;
  }

  // ---------- the loop ----------

  function Clipped(text: string): string {
    if |text| <= CONTEXT_RESULT_MAX then text else text[..CONTEXT_RESULT_MAX] + "[truncated]"
  }

  /** The answer a run ends with, and the history it hands back. */
  function Finished(r: Run, content: string, injected: seq<Message>): Run
    requires |injected| < |r.messages| + 1
  {
    var messages := r.messages + [Message(Assistant, Says(content))];
    r.(messages := messages, events := r.events + [Done(content, messages[|injected|..])])
  }

  /** A run that has ended: one answer, at the end of the events, over a sound run. */
  ghost predicate Ended(cfg: Config, injected: seq<Message>, r: Run) {
    && r.events != [] && Sound(cfg, injected, r.(events := r.events[..|r.events| - 1]))
    && r.events[|r.events| - 1].Done? && r.events[|r.events| - 1].history == r.messages[|injected|..]
  }

  lemma FinishedEnds(cfg: Config, injected: seq<Message>, r: Run, content: string)
    requires Sound(cfg, injected, r)
    ensures |injected| <= |r.messages| && Ended(cfg, injected, Finished(r, content, injected))
  {
    hide Orderly, NoConflict, Evidenced, NotDone, RepeatsBounded, Counted;
    SayKeeps(cfg, injected, r, [Message(Assistant, Says(content))]);
    var f := Finished(r, content, injected);
    assert f.events[..|f.events| - 1] == r.events;
    assert f.(events := r.events) == r.(messages := r.messages + [Message(Assistant, Says(content))]);
  }

  /** Events are only added, and no tool is started among them. */
  ghost predicate NoStarts(before: seq<Event>, after: seq<Event>) {
    before <= after && forall k :: |before| <= k < |after| ==> !after[k].ToolStart?
  }

  /** Events are only added, and no tool but this one is started among them. */
  ghost predicate OnlyStarts(before: seq<Event>, after: seq<Event>, start: Event) {
    before <= after && forall k :: |before| <= k < |after| && after[k].ToolStart? ==> after[k] == start
  }

  lemma NoStartsOn(a: seq<Event>, b: seq<Event>, c: seq<Event>)
    requires NoStarts(a, b) && NoStarts(b, c)
    ensures NoStarts(a, c)
  {
    assert forall k :: |a| <= k < |b| ==> c[k] == b[k];
  }

  lemma OnlyStartsOn(a: seq<Event>, b: seq<Event>, c: seq<Event>, start: Event)
    requires OnlyStarts(a, b, start) && NoStarts(b, c)
    ensures OnlyStarts(a, c, start)
  {
    assert forall k :: |a| <= k < |b| ==> c[k] == b[k];
  }

  /** The answer a run ends with. */
  ghost predicate Gives(r: Run, content: string) {
    r.events != [] && r.events[|r.events| - 1].Done? && r.events[|r.events| - 1].content == content
  }

  method Noted(cfg: Config, ghost injected: seq<Message>, r: Run, e: Event) returns (next: Run)
    requires Sound(cfg, injected, r) && Quiet(e)
    ensures Sound(cfg, injected, next) && next == r.(events := r.events + [e])
  {
    hide Sound;
    QuietKeeps(cfg, injected, r, e);
    next := r.(events := r.events + [e]);
  }

  method Said(cfg: Config, ghost injected: seq<Message>, r: Run, said: seq<Message>) returns (next: Run)
    requires Sound(cfg, injected, r)
    ensures Sound(cfg, injected, next) && next == r.(messages := r.messages + said)
  {
    hide Sound;
    SayKeeps(cfg, injected, r, said);
    next := r.(messages := r.messages + said);
  }

  method Replied(cfg: Config, ghost injected: seq<Message>, r: Run, a: Action, nudge: string) returns (next: Run)
    requires Sound(cfg, injected, r)
    ensures Sound(cfg, injected, next)
    ensures next == r.(messages := r.messages + [Message(Assistant, Calls(a)), Message(User, Nudge(nudge))])
  {
    next := Said(cfg, injected, r, [Message(Assistant, Calls(a)), Message(User, Nudge(nudge))]);
  }

  method Finish(cfg: Config, injected: seq<Message>, r: Run, content: string) returns (next: Run)
    requires Sound(cfg, injected, r)
    ensures Ended(cfg, injected, next) && next == r.(messages := next.messages, events := next.events)
    ensures |next.events| == |r.events| + 1 && NoStarts(r.events, next.events)
    ensures Gives(next, content)
  {
    hide Sound, Ended;
    FinishedEnds(cfg, injected, r, content);
    next := Finished(r, content, injected);
  }

  function Numeric(stated: Stated): Confidence {
    if stated.States? then stated.confidence else Finite(1.0)
  }

  /** The confidence the gate reads: the action's own, or else the one reported beside it. */
  function GateConfidence(turn: Turn, a: Action): Confidence {
    Numeric(if a.confidence.Unstated? then turn.metaConfidence else a.confidence)
  }

  /** Questions, plans and thoughts are not gated, nor are answers in a test session. */
  predicate Ungated(cfg: Config, a: Action) {
    a.kind in {"clarify", "plan", "think", "think_deep"} || (cfg.testSession && a.kind == "respond")
  }

  predicate Gated(cfg: Config, a: Action) {
    (cfg.strict || a.kind in DESTRUCTIVE) && !Ungated(cfg, a)
  }

  /** What the gate asks about: destructive kinds meet thresholds no configuration lowers. */
  function ProposalFor(cfg: Config, r: Run, turn: Turn, a: Action): Proposal {
    var confidence := if cfg.confidenceThreshold == 0.0 then CONFIDENCE_FLOOR else cfg.confidenceThreshold;
    var evidence := if cfg.evidenceThreshold == 0 then 1 else cfg.evidenceThreshold;
    var enforce := a.kind in DESTRUCTIVE;
    Proposal(a.kind, turn.signals, GateConfidence(turn, a), r.evidenceHits, r.recentConflict,
             if enforce && confidence < CONFIDENCE_FLOOR then CONFIDENCE_FLOOR else confidence,
             if enforce && evidence < 1 then 1 else evidence, cfg.strict)
  }

  // ---------- the gate's rule, spelled out ----------

  /** The thresholds in force: zero reads as the default, and destructive kinds raise both. */
  function ConfidenceFloor(cfg: Config, a: Action): real {
    var configured := if cfg.confidenceThreshold == 0.0 then 0.95 else cfg.confidenceThreshold;
    if a.kind in DESTRUCTIVE && configured < 0.95 then 0.95 else configured
  }

  function EvidenceFloor(cfg: Config, a: Action): int {
    var configured := if cfg.evidenceThreshold == 0 then 1 else cfg.evidenceThreshold;
    if a.kind in DESTRUCTIVE && configured < 1 then 1 else configured
  }

  /** The confidence stated with the action, or else beside it, is not below the floor. What is not
      stated or cannot be read counts as one; what is not a number is never below. */
  predicate Confident(turn: Turn, a: Action, floor: real) {
    match if a.confidence == Unstated then turn.metaConfidence else a.confidence
    case States(NotANumber) => true
    case States(MinusInfinity) => false
    case States(PlusInfinity) => true
    case States(Finite(v)) => v >= floor
    case _ => 1.0 >= floor
  }

  /** Asking, planning and thinking are always let through, and so are answers in a test session;
      outside strict mode so is everything that is not destructive. */
  predicate Exempt(cfg: Config, a: Action) {
    || a.kind == "clarify" || a.kind == "plan" || a.kind == "think" || a.kind == "think_deep"
    || (cfg.testSession && a.kind == "respond")
    || (!cfg.strict && a.kind !in DESTRUCTIVE)
  }

  /** Nothing speaks against an action: its fields are there, nothing contradicts it, no self-check
      objects and no tool has left a conflict; and, unless it clones a repository the user named,
      the request spells out what its kind needs, and evidence and confidence suffice. */
  predicate Undisputed(cfg: Config, r: Run, turn: Turn, a: Action) {
    var s := turn.signals;
    var kind := Trim(a.kind);
    && !s.missingFields && !s.conflictingInstructions && !s.adversarialIssues && r.recentConflict == ""
    && ((kind == "clone_repo" && s.repoUrl) ||
        (&& (kind in EXECUTION_CONTRACT ==> s.explicitGoal && s.completeInputs && s.constraints && s.outputFormat)
         && (kind in EVIDENCE_REQUIRED ==> r.evidenceHits >= EvidenceFloor(cfg, a))
         && (cfg.strict || kind in HIGH_RISK ==> Confident(turn, a, ConfidenceFloor(cfg, a)))))
  }

  predicate Passes(cfg: Config, r: Run, turn: Turn, a: Action) {
    Exempt(cfg, a) || Undisputed(cfg, r, turn, a)
  }

  /** Whether the gate is open: the action is not gated, or nothing is doubted about it. */
  ghost predicate Open(cfg: Config, r: Run, turn: Turn, a: Action) {
    !Gated(cfg, a) || forall reason :: !Doubted(ProposalFor(cfg, r, turn, a), reason)
  }

  lemma ConfidentIsNotBelow(turn: Turn, a: Action, floor: real)
    ensures Confident(turn, a, floor) <==> !Below(GateConfidence(turn, a), floor)
  {
  }

  lemma OpenIsPassing(cfg: Config, r: Run, turn: Turn, a: Action)
    ensures Open(cfg, r, turn, a) <==> Passes(cfg, r, turn, a)
  {
    hide HIGH_RISK, EVIDENCE_REQUIRED, EXECUTION_CONTRACT, DESTRUCTIVE, Trim, Below, GateConfidence, Confident, Charged;
    var p := ProposalFor(cfg, r, turn, a);
    ChargesSpelledOut(p);
    ConfidentIsNotBelow(turn, a, ConfidenceFloor(cfg, a));
    NoSideEffectGround(p);
    if Undisputed(cfg, r, turn, a) {
      forall reason: Reason ensures !Charged(p, reason) { CasesOfReason(reason); }
    } else if Gated(cfg, a) {
      var reason: Reason := WhyDisputed(cfg, r, turn, a);
      assert Doubted(p, reason);
    }
  }

  lemma CasesOfReason(reason: Reason)
    ensures reason in {MissingParameters, SchemaMismatch, ConflictingInstructions, ConflictingToolOutput,
                       LowModelConfidence, WeakRetrievalEvidence, MissingGoal, MissingInputs, MissingConstraints,
                       MissingOutputFormat, AdversarialSelfCheck, UnsafeSideEffects}
  {
  }

  /** A reason that is charged to an action in dispute. */
  lemma WhyDisputed(cfg: Config, r: Run, turn: Turn, a: Action) returns (reason: Reason)
    requires !Undisputed(cfg, r, turn, a)
    ensures reason != UnsafeSideEffects && Charged(ProposalFor(cfg, r, turn, a), reason)
  {
    hide HIGH_RISK, EVIDENCE_REQUIRED, EXECUTION_CONTRACT, DESTRUCTIVE, Trim, Below, GateConfidence, Confident, Charged;
    var p := ProposalFor(cfg, r, turn, a);
    var s := turn.signals;
    ChargesSpelledOut(p);
    ConfidentIsNotBelow(turn, a, ConfidenceFloor(cfg, a));
    reason :=
      if s.missingFields then MissingParameters
      else if s.conflictingInstructions then ConflictingInstructions
      else if s.adversarialIssues then AdversarialSelfCheck
      else if r.recentConflict != "" then ConflictingToolOutput
      else if Trim(a.kind) in EXECUTION_CONTRACT && !s.explicitGoal then MissingGoal
      else if Trim(a.kind) in EXECUTION_CONTRACT && !s.completeInputs then MissingInputs
      else if Trim(a.kind) in EXECUTION_CONTRACT && !s.constraints then MissingConstraints
      else if Trim(a.kind) in EXECUTION_CONTRACT && !s.outputFormat then MissingOutputFormat
      else if Trim(a.kind) in EVIDENCE_REQUIRED && r.evidenceHits < EvidenceFloor(cfg, a) then WeakRetrievalEvidence
      else LowModelConfidence;
  }

  /** The gate lets an action through exactly when it is exempt or nothing speaks against it;
      otherwise the run ends with a clarification. */
  method Gate(cfg: Config, injected: seq<Message>, r0: Run, turn: Turn, a: Action)
    returns (r: Run, through: bool)
    requires Sound(cfg, injected, r0)
    ensures through <==> Open(cfg, r0, turn, a)
    ensures through <==> Passes(cfg, r0, turn, a)
    ensures through ==> r == r0 && (Ungated(cfg, a) || LetThrough(cfg, r, a, GateConfidence(turn, a)))
    ensures !through ==> Ended(cfg, injected, r) && r == r0.(messages := r.messages, events := r.events)
    ensures !through ==> NoStarts(r0.events, r.events)
    ensures !through ==> exists reasons :: (Clarify(reasons) in r.events
              && forall reason :: reason in reasons <==> Doubted(ProposalFor(cfg, r0, turn, a), reason))
  {
    hide Sound, Ended, GUARDED, DESTRUCTIVE, Trim, Doubted, Ungated, LetThrough, ProposalFor, Passes;
    OpenIsPassing(cfg, r0, turn, a);
    r, through := r0, true;
    if Gated(cfg, a) {
      var p := ProposalFor(cfg, r, turn, a);
      var score, reasons := StrictDoubtAssessment(p);
      if score > 0.0 {
        assert Doubted(p, reasons[0]) by { assert reasons[0] in reasons; }
        r := Noted(cfg, injected, r, Clarify(reasons));
        r := Said(cfg, injected, r, [Message(Assistant, Asks(reasons))]);
        assert Clarify(reasons) in r.events;
        r := Finish(cfg, injected, r, "I need a clarification before I can continue.");
        return r, false;
      }
      forall reason ensures !Doubted(p, reason) { assert reason !in reasons; }
      UndoubtedIsLetThrough(cfg, r, turn, a);
    } else if !Ungated(cfg, a) {
      UngatedIsLetThrough(cfg, r, turn, a);
    }
  }

  lemma UndoubtedIsLetThrough(cfg: Config, r: Run, turn: Turn, a: Action)
    requires forall reason :: !Doubted(ProposalFor(cfg, r, turn, a), reason)
    ensures LetThrough(cfg, r, a, GateConfidence(turn, a))
  {
    hide Doubted, GUARDED, DESTRUCTIVE;
    UndoubtedAction(ProposalFor(cfg, r, turn, a));
    if a.kind in GUARDED { GuardedKind(a.kind); }
  }

  lemma UngatedIsLetThrough(cfg: Config, r: Run, turn: Turn, a: Action)
    requires !Gated(cfg, a) && !Ungated(cfg, a)
    ensures LetThrough(cfg, r, a, GateConfidence(turn, a))
  {
    hide GUARDED, DESTRUCTIVE, Ungated;
    if a.kind in GUARDED { GuardedKind(a.kind); }
  }

  function Attempts(r: Run, a: Action): nat {
    var s := Signature(a);
    if s in r.attempts then r.attempts[s] else 0
  }

  predicate Untired(r: Run, a: Action) {
    Attempts(r, a) < if a.kind == "list_files" then 1 else 2
  }

  /** The repeat guard: counts the attempt and says whether it may go on. */
  method RepeatGuard(cfg: Config, ghost injected: seq<Message>, r0: Run, a: Action) returns (r: Run, through: bool)
    requires Sound(cfg, injected, r0)
    ensures Sound(cfg, injected, r) && r0.events <= r.events
    ensures r == r0.(messages := r.messages, events := r.events, attempts := r.attempts, passed := r.passed)
    ensures through <==> Untired(r0, a)
    ensures through <==>
      || Signature(a) !in r0.attempts || r0.attempts[Signature(a)] == 0
      || (a.kind != "list_files" && r0.attempts[Signature(a)] == 1)
    ensures through ==> r.messages == r0.messages
    ensures if through then r.events == r0.events else r.events == r0.events + [Refused(a)]
    ensures Attempts(r, a) == Attempts(r0, a) + 1 && r.passed == if through then r0.passed + [a] else r0.passed
  {
    hide Sound, Signature;
    PassKeeps(cfg, injected, r0, a);
    var s := Signature(a);
    var n := Attempts(r0, a) + 1;
    var maxRepeats := if a.kind == "list_files" then 1 else 2;
    if n > maxRepeats {
      r := r0.(attempts := r0.attempts[s := n]);
      r := Noted(cfg, injected, r, Refused(a));
      r := Replied(cfg, injected, r, a, "Repeated tool call blocked to avoid loop.");
      return r, false;
    }
    return r0.(attempts := r0.attempts[s := n], passed := r0.passed + [a]), true;
  }

  /** A text, cut after 1200 characters if it is longer. */
  predicate IsClip(text: string, clip: string) {
    if |text| <= 1200 then clip == text else clip == text[..1200] + "[truncated]"
  }

  /** The conversation goes on with the action and its result: as a native tool message where the
      model asked for one and the text came from a workspace tool, else as the user's, which from
      the third file read on may push for an answer. */
  ghost predicate Told(before: Run, after: Run, turn: Turn, a: Action) {
    exists clip, push :: IsClip(turn.text, clip)
      && (push == "" || (push == " Call respond NOW with your full analysis." && a.kind == "read_file"))
      && (push != "" ==> before.filesRead >= 2)
      && after.messages == before.messages +
           if turn.native && RunOf(turn, a).Plain?
           then [Message(Assistant, NativeCall(a)), Message(ToolRole, Says(clip))]
           else [Message(Assistant, Calls(a)), Message(User, Nudge(clip + push))]
  }

  lemma TellsResult(before: Run, after: Run, turn: Turn, a: Action, push: string)
    requires push == ""
      || (push == " Call respond NOW with your full analysis." && a.kind == "read_file" && before.filesRead >= 2)
    requires after.messages == before.messages +
      if turn.native && RunOf(turn, a).Plain?
      then [Message(Assistant, NativeCall(a)), Message(ToolRole, Says(Clipped(turn.text)))]
      else [Message(Assistant, Calls(a)), Message(User, Nudge(Clipped(turn.text) + push))]
    ensures Told(before, after, turn, a)
  {
    hide RunOf;
    assert IsClip(turn.text, Clipped(turn.text));
  }

  /** Takes in a structured result. A hard blocker ends the run. */
  method TakeBuiltin(cfg: Config, injected: seq<Message>, r0: Run, run: ToolRun, a: Action)
    returns (r: Run, over: bool)
    requires Sound(cfg, injected, r0) && (cfg.strict ==> r0.recentConflict == "") && run.Builtin?
    ensures if over then Ended(cfg, injected, r) else Sound(cfg, injected, r)
    ensures r.passed == r0.passed && r.toolCalls == r0.toolCalls
    ensures r0.events + [ToolResult(a, run)] <= r.events && NoStarts(r0.events, r.events)
    ensures over <==> BlockerReason(a.kind, run.text) != ""
    ensures !over ==> Moved(r0, r, a, run)
    ensures !over ==>
      r.messages == r0.messages + [Message(Assistant, Calls(a)), Message(User, Nudge(Clipped(run.text)))]
  {
    hide Sound, Ended, BlockerReason, StatusFailed, EVIDENCE, Clipped;
    var hard := BlockerReason(a.kind, run.text);
    if hard != "" {
      ResultKeeps(cfg, injected, r0, a, run, r0.evidenceHits, hard);
      r := r0.(events := r0.events + [ToolResult(a, run)], recentConflict := hard);
      r := Finish(cfg, injected, r, "I hit a blocker.");
      return r, true;
    }
    var hits, conflict := r0.evidenceHits, r0.recentConflict;
    if StatusFailed(run.status) {
      conflict := a.kind + ":" + run.status;
    } else if a.kind in EVIDENCE {
      hits := hits + 1;
      conflict := "";
    }
    ResultKeeps(cfg, injected, r0, a, run, hits, conflict);
    r := r0.(events := r0.events + [ToolResult(a, run)], evidenceHits := hits, recentConflict := conflict);
    r := Replied(cfg, injected, r, a, Clipped(run.text));
    over := false;
  }

  /** What a result does to the counters: evidence counts and settles a conflict, a conflict
      is remembered, anything else leaves both. */
  predicate Moved(before: Run, after: Run, a: Action, run: ToolRun) {
    if Conflicts(a, run) then after.evidenceHits == before.evidenceHits && after.recentConflict != ""
    else if a.kind in EVIDENCE then after.evidenceHits == before.evidenceHits + 1 && after.recentConflict == ""
    else after.evidenceHits == before.evidenceHits && after.recentConflict == before.recentConflict
  }

  /** Takes in the text of a file-system tool. */
  method TakePlain(cfg: Config, injected: seq<Message>, r0: Run, turn: Turn, a: Action)
    returns (r: Run, over: bool)
    requires Sound(cfg, injected, r0) && (cfg.strict ==> r0.recentConflict == "")
    ensures if over then Ended(cfg, injected, r) else Sound(cfg, injected, r)
    ensures r.passed == r0.passed && r.toolCalls == r0.toolCalls
    ensures r0.events + [ToolResult(a, Plain(turn.text))] <= r.events && NoStarts(r0.events, r.events)
    ensures over <==> BlockerReason(a.kind, turn.text) != ""
    ensures !over ==> Moved(r0, r, a, Plain(turn.text))
    ensures !over ==> Shown(r0, r, a, Clipped(turn.text), turn.native)
  {
    hide Sound, Ended, BlockerReason, SoundsFailed, EVIDENCE, Clipped;
    var run := Plain(turn.text);
    var hard := BlockerReason(a.kind, run.text);
    if hard != "" {
      ResultKeeps(cfg, injected, r0, a, run, r0.evidenceHits, hard);
      r := r0.(events := r0.events + [ToolResult(a, run)], recentConflict := hard);
      r := Finish(cfg, injected, r, "I hit a blocker.");
      return r, true;
    }
    var hits, conflict := r0.evidenceHits, r0.recentConflict;
    if a.kind in EVIDENCE {
      hits := hits + 1;
      conflict := "";
    } else if SoundsFailed(run.text) {
      conflict := a.kind + ":tool_result_conflict";
    }
    ResultKeeps(cfg, injected, r0, a, run, hits, conflict);
    r := r0.(events := r0.events + [ToolResult(a, run)], evidenceHits := hits, recentConflict := conflict);
    r := ShowResult(cfg, injected, r, a, Clipped(run.text), turn.native);
    over := false;
  }

  predicate Shown(before: Run, after: Run, a: Action, text: string, native: bool) {
    after.messages == before.messages +
      if native then [Message(Assistant, NativeCall(a)), Message(ToolRole, Says(text))]
      else if a.kind == "read_file" && before.filesRead >= 2
      then [Message(Assistant, Calls(a)), Message(User, Nudge(text + " Call respond NOW with your full analysis."))]
      else [Message(Assistant, Calls(a)), Message(User, Nudge(text))]
  }

  /** Puts a tool's text into the conversation; from the third file read on, with a push to
      answer. */
  method ShowResult(cfg: Config, ghost injected: seq<Message>, r0: Run, a: Action, text: string, native: bool)
    returns (r: Run)
    requires Sound(cfg, injected, r0)
    ensures Sound(cfg, injected, r) && Shown(r0, r, a, text, native)
    ensures r == r0.(messages := r.messages, filesRead := r0.filesRead + if a.kind == "read_file" then 1 else 0)
  {
    hide Sound;
    ReadKeeps(cfg, injected, r0);
    r := if a.kind == "read_file" then r0.(filesRead := r0.filesRead + 1) else r0;
    if native {
      r := Said(cfg, injected, r, [Message(Assistant, NativeCall(a)), Message(ToolRole, Says(text))]);
    } else if a.kind == "read_file" && r.filesRead >= 3 {
      r := Replied(cfg, injected, r, a, text + " Call respond NOW with your full analysis.");
    } else {
      r := Replied(cfg, injected, r, a, text);
    }
  }

  lemma ReadKeeps(cfg: Config, injected: seq<Message>, r: Run)
    requires Sound(cfg, injected, r)
    ensures Sound(cfg, injected, r.(filesRead := r.filesRead + 1))
  {
  }

  /** The kinds that only the workspace tools serve. */
  predicate IsLocal(kind: string) {
    kind in {"web_search", "write_file", "read_file", "list_files", "delete_file"}
  }

  /** Which tool answers, and what it gives back. */
  function RunOf(turn: Turn, a: Action): ToolRun {
    if !IsLocal(a.kind) && turn.builtinStatus.Some? then Builtin(turn.builtinStatus.value, turn.text)
    else Plain(turn.text)
  }

  /** What persona, safety and approval policies allow. A mere warning does not hold a tool up. */
  predicate Permitted(turn: Turn) {
    turn.personaAllowed && !turn.blocked && !turn.approval.Withheld?
  }

  /** Dispatches a tool and takes in what it gives back. */
  method Dispatch(cfg: Config, injected: seq<Message>, r0: Run, turn: Turn, a: Action)
    returns (r: Run, over: bool)
    requires Sound(cfg, injected, r0) && LetThrough(cfg, r0, a, GateConfidence(turn, a))
    requires cfg.maxToolCalls > 0 ==> r0.toolCalls < cfg.maxToolCalls
    ensures if over then Ended(cfg, injected, r) else Sound(cfg, injected, r)
    ensures r.passed == r0.passed
    ensures OnlyStarts(r0.events, r.events, ToolStart(a, GateConfidence(turn, a)))
    ensures Dispatched(r0, r, turn, a, over)
  {
    hide Sound, Ended, Conflicts, GUARDED, Moved, BlockerReason, LetThrough, Told, Shown, Clipped, GateConfidence,
      Dispatched;
    StillLetThrough(cfg, r0, r0, turn, a);
    StartKeeps(cfg, injected, r0, a, GateConfidence(turn, a));
    r := r0.(events := r0.events + [ToolStart(a, GateConfidence(turn, a))], toolCalls := r0.toolCalls + 1);
    ghost var started := r;
    if !IsLocal(a.kind) && turn.builtinStatus.Some? {
      r, over := TakeBuiltin(cfg, injected, r, Builtin(turn.builtinStatus.value, turn.text), a);
      if !over { TellsStructured(started, r, turn, a); }
    } else {
      r, over := TakePlain(cfg, injected, r, turn, a);
      if !over { TellsShown(started, r, turn, a); }
    }
    DispatchedFrom(r0, started, r, turn, a, over);
  }

  /** Policy checks, then the tool itself: dispatched exactly when permitted, with its result
      in the events and in the counters. */
  method UseTool(cfg: Config, injected: seq<Message>, r0: Run, turn: Turn, a: Action)
    returns (r: Run, over: bool)
    requires Sound(cfg, injected, r0) && LetThrough(cfg, r0, a, GateConfidence(turn, a))
    requires cfg.maxToolCalls > 0 ==> r0.toolCalls < cfg.maxToolCalls
    ensures if over then Ended(cfg, injected, r) else Sound(cfg, injected, r)
    ensures r.passed == r0.passed
    ensures OnlyStarts(r0.events, r.events, ToolStart(a, GateConfidence(turn, a)))
    ensures !Permitted(turn) ==> NoStarts(r0.events, r.events)
    ensures !Permitted(turn) ==> !over && r == r0.(messages := r.messages, events := r.events)
    ensures Permitted(turn) ==> Dispatched(r0, r, turn, a, over)
    ensures turn.personaAllowed && !turn.blocked && (turn.approval.Warned? || turn.approval.Withheld?) ==>
      |r0.events| < |r.events| && r.events[|r0.events|] == Note("approval_required")
  {
    hide Sound, Ended, LetThrough, Dispatched, GateConfidence;
    r, over := r0, false;
    if !turn.personaAllowed || turn.blocked {
      r := Noted(cfg, injected, r, Refused(a));
      r := Replied(cfg, injected, r, a, "Tool result");
      return;
    }
    if turn.approval.Warned? || turn.approval.Withheld? {
      r := Noted(cfg, injected, r, Note("approval_required"));
      if turn.approval.Withheld? {
        r := Noted(cfg, injected, r, Refused(a));
        r := Replied(cfg, injected, r, a, "Tool result");
        return;
      }
    }
    StillLetThrough(cfg, r0, r, turn, a);
    ghost var before := r;
    r, over := Dispatch(cfg, injected, r, turn, a);
    SameDispatch(r0, before, r, turn, a, over);
  }

  lemma TellsStructured(before: Run, after: Run, turn: Turn, a: Action)
    requires RunOf(turn, a).Builtin?
    requires after.messages == before.messages +
      [Message(Assistant, Calls(a)), Message(User, Nudge(Clipped(RunOf(turn, a).text)))]
    ensures Told(before, after, turn, a)
  {
    hide Clipped, IsClip;
    assert Clipped(turn.text) + "" == Clipped(turn.text);
    TellsResult(before, after, turn, a, "");
  }

  lemma TellsShown(before: Run, after: Run, turn: Turn, a: Action)
    requires RunOf(turn, a).Plain? && Shown(before, after, a, Clipped(turn.text), turn.native)
    ensures Told(before, after, turn, a)
  {
    hide RunOf, Clipped, IsClip;
    if turn.native || !(a.kind == "read_file" && before.filesRead >= 2) {
      assert Clipped(turn.text) + "" == Clipped(turn.text);
      TellsResult(before, after, turn, a, "");
    } else {
      TellsResult(before, after, turn, a, " Call respond NOW with your full analysis.");
    }
  }

  /** What a dispatch leaves behind. */
  ghost predicate Dispatched(before: Run, after: Run, turn: Turn, a: Action, over: bool) {
    && ToolStart(a, GateConfidence(turn, a)) in after.events && ToolResult(a, RunOf(turn, a)) in after.events
    && after.toolCalls == before.toolCalls + 1
    && (over <==> BlockerReason(a.kind, turn.text) != "")
    && (!over ==> Moved(before, after, a, RunOf(turn, a)) && Told(before, after, turn, a))
  }

  lemma DispatchedFrom(before: Run, started: Run, after: Run, turn: Turn, a: Action, over: bool)
    requires ToolStart(a, GateConfidence(turn, a)) in started.events && started.toolCalls == before.toolCalls + 1
    requires started.evidenceHits == before.evidenceHits && started.recentConflict == before.recentConflict
    requires started.events + [ToolResult(a, RunOf(turn, a))] <= after.events && after.toolCalls == started.toolCalls
    requires over <==> BlockerReason(a.kind, turn.text) != ""
    requires !over ==> Moved(started, after, a, RunOf(turn, a)) && Told(started, after, turn, a)
    requires started.messages == before.messages && started.filesRead == before.filesRead
    ensures Dispatched(before, after, turn, a, over)
  {
    hide Conflicts, BlockerReason, EVIDENCE, RunOf, IsClip;
    assert after.events[|started.events|] == ToolResult(a, RunOf(turn, a));
    forall e | e in started.events ensures e in after.events {
      var i :| 0 <= i < |started.events| && started.events[i] == e;
      assert after.events[i] == e;
    }
  }

  /** The answer to give: never blank, and the revision where one was called for and is long
      enough to be one. */
  function AnswerOf(turn: Turn, a: Action): string {
    var own := if Trim(a.content) == "" then "*(No content received from AI provider.)*" else a.content;
    if Below(Numeric(a.confidence), CRITIQUE_THRESHOLD) && |own| > 40 && |Trim(turn.revised)| > 20
    then Trim(turn.revised) else own
  }

  /** The final answer: the model's own, or its revision when its confidence was low. */
  method Respond(cfg: Config, injected: seq<Message>, r0: Run, turn: Turn, a: Action) returns (r: Run)
    requires Sound(cfg, injected, r0) && !Breaks(a)
    ensures Ended(cfg, injected, r) && r == r0.(messages := r.messages, events := r.events)
    ensures NoStarts(r0.events, r.events)
    ensures Gives(r, AnswerOf(turn, a))
  {
    hide Sound, Ended;
    r := r0;
    var answer := if Trim(a.content) == "" then "*(No content received from AI provider.)*" else a.content;
    if Below(Numeric(a.confidence), CRITIQUE_THRESHOLD) && |answer| > 40 && |Trim(turn.revised)| > 20 {
      r := Noted(cfg, injected, r, Note("critique"));
      answer := Trim(turn.revised);
    }
    r := Noted(cfg, injected, r, Note("confidence"));
    r := Noted(cfg, injected, r, Note("token"));
    r := Finish(cfg, injected, r, answer);
  }

  /** Kinds the loop answers without the tool policy: one note and a nudge to go on. */
  predicate IsAside(kind: string) {
    kind in {"plan", "think", "think_deep", "sub_agent", "orchestrate_goal", "decompose_goal", "simulate",
             "agent_message"}
  }

  /** The calls a group counts for; a failed parallel one counts twice. */
  function CallsOf(turn: Turn, a: Action): nat {
    if turn.subTools == 0 then 0 else turn.subTools + if a.kind == "parallel_tools" then turn.subFailures else 0
  }

  /** Several tools under one action, in parallel or chained. */
  method UseGroup(cfg: Config, injected: seq<Message>, r0: Run, turn: Turn, a: Action) returns (r: Run)
    requires Sound(cfg, injected, r0) && (cfg.strict ==> r0.recentConflict == "")
    ensures Sound(cfg, injected, r)
    ensures r == r0.(messages := r.messages, events := r.events, toolCalls := r0.toolCalls + CallsOf(turn, a))
    ensures r.toolCalls == r0.toolCalls + turn.subTools
      + if turn.subTools > 0 && a.kind == "parallel_tools" then turn.subFailures else 0
    ensures NoStarts(r0.events, r.events)
    ensures turn.subTools > 0 ==> GroupStart(a) in r.events
  {
    hide Sound;
    r := r0;
    if turn.subTools > 0 {
      var calls := CallsOf(turn, a);
      GroupKeeps(cfg, injected, r, a, calls);
      r := r.(events := r.events + [GroupStart(a)], toolCalls := r.toolCalls + calls);
      for i := 0 to turn.subTools
        invariant Sound(cfg, injected, r) && GroupStart(a) in r.events && NoStarts(r0.events, r.events)
        invariant r == r0.(events := r.events, toolCalls := r0.toolCalls + calls)
      {
        r := Noted(cfg, injected, r, Note("tool"));
      }
    }
    r := Replied(cfg, injected, r, a, "Tool results");
  }

  /** What a task brings to a run: the history, its compressed form, the context found for
      it, and the answer given when the steps run out. */
  datatype Task = Task(
    history: seq<Message>, compressed: seq<Message>, user: string, direct: Option<string>, hasFiles: bool,
    clones: nat, knowledge: Option<string>, memory: Option<string>, guidance: Option<string>, forced: string)

  function Pair(context: Option<string>): seq<Message> {
    if context.None? then [] else [Message(User, Says(context.value)), Message(Assistant, Says("Noted"))]
  }

  /** The messages put in front of the conversation for the model only. */
  function InjectedFor(task: Task): seq<Message> {
    if task.direct.Some? && !task.hasFiles then [] else Pair(task.memory) + Pair(task.knowledge)
  }

  /** A run as its client sees it: one answer, at the very end. */
  ghost predicate AnsweredOnce(events: seq<Event>) {
    events != [] && events[|events| - 1].Done? && NotDone(events[..|events| - 1])
  }

  lemma SoundStart(cfg: Config, injected: seq<Message>, messages: seq<Message>)
    requires Prefixed(injected, messages)
    ensures Sound(cfg, injected, Run(messages, [], 0, "", map[], 0, 0, []))
  {
  }

  /** The last event of a run changes nothing that held before it. */
  lemma DoneDelivers(cfg: Config, injected: seq<Message>, r: Run)
    requires r.events != [] && r.events[|r.events| - 1].Done?
    requires Sound(cfg, injected, r.(events := r.events[..|r.events| - 1]))
    ensures AnsweredOnce(r.events) && Prefixed(injected, r.messages)
    ensures Orderly(cfg, r.events, r.toolCalls) && RepeatsBounded(r.passed)
  {
    hide Orderly, RepeatsBounded, Counted, NoConflict, Evidenced;
    var before := r.events[..|r.events| - 1];
    assert r.events == before + [r.events[|r.events| - 1]];
    AppendOrderly(cfg, before, r.toolCalls, r.events[|r.events| - 1]);
  }

  lemma SoundDelivers(cfg: Config, injected: seq<Message>, r: Run)
    requires Sound(cfg, injected, r)
    ensures NotDone(r.events) && Prefixed(injected, r.messages)
    ensures Orderly(cfg, r.events, r.toolCalls) && RepeatsBounded(r.passed)
  {
  }

  lemma EndedDelivers(cfg: Config, injected: seq<Message>, r: Run)
    requires Ended(cfg, injected, r)
    ensures AnsweredOnce(r.events) && Prefixed(injected, r.messages)
    ensures Orderly(cfg, r.events, r.toolCalls) && RepeatsBounded(r.passed)
    ensures r.events[|r.events| - 1].history == r.messages[|injected|..]
  {
    hide Sound, Orderly, RepeatsBounded;
    DoneDelivers(cfg, injected, r);
  }

  /** The conversation a run starts from, with its injected context in front. */
  method Opening(cfg: Config, task: Task, injected: seq<Message>) returns (r: Run)
    requires injected == Pair(task.memory) + Pair(task.knowledge)
    ensures Sound(cfg, injected, r) && r.passed == [] && NoStarts([], r.events)
    ensures injected + task.compressed + [Message(User, Says(task.user))] <= r.messages
  {
    hide Sound;
    var messages := task.compressed;
    messages := Pair(task.knowledge) + messages;
    messages := Pair(task.memory) + messages;
    messages := messages + [Message(User, Says(task.user))];
    assert messages == injected + task.compressed + [Message(User, Says(task.user))];
    SoundStart(cfg, injected, messages);
    r := Run(messages, [], 0, "", map[], 0, 0, []);
    r := Noted(cfg, injected, r, Note("status"));
    for i := 0 to task.clones
      invariant Sound(cfg, injected, r) && r.passed == [] && r.messages == messages && NoStarts([], r.events)
    {
      r := Noted(cfg, injected, r, Note("clone_repo"));
    }
    r := Noted(cfg, injected, r, Note("complexity"));
    if task.guidance.Some? {
      r := Said(cfg, injected, r, [Message(Assistant, Says(task.guidance.value))]);
      r := Noted(cfg, injected, r, Note("mcts_plan"));
    }
  }

  /** A question the built-in answers need no model for. */
  method Direct(cfg: Config, task: Task) returns (r: Run)
    requires task.direct.Some?
    ensures Ended(cfg, [], r) && r.passed == [] && NoStarts([], r.events) && Gives(r, task.direct.value)
  {
    hide Sound, Ended;
    var messages := task.history + [Message(User, Says(task.user))];
    assert Prefixed([], messages);
    SoundStart(cfg, [], messages);
    r := Run(messages, [], 0, "", map[], 0, 0, []);
    r := Noted(cfg, [], r, Note("status"));
    r := Finish(cfg, [], r, task.direct.value);
  }

  /** A stopped run hands back every message, the injected ones included. */
  method Stop(cfg: Config, ghost injected: seq<Message>, r0: Run) returns (r: Run)
    requires Sound(cfg, injected, r0)
    ensures AnsweredOnce(r.events) && Prefixed(injected, r.messages)
    ensures Orderly(cfg, r.events, r.toolCalls) && RepeatsBounded(r.passed)
    ensures r.events[|r.events| - 1].history == r.messages && r.passed == r0.passed
    ensures NoStarts(r0.events, r.events) && Gives(r, "*(Stopped)*")
  {
    hide Sound, Orderly, RepeatsBounded;
    r := r0.(events := r0.events + [Done("*(Stopped)*", r0.messages)]);
    assert r.events[..|r.events| - 1] == r0.events && r.(events := r0.events) == r0;
    DoneDelivers(cfg, injected, r);
  }

  /** The action to take: content without an action is an answer. */
  function ActionOf(turn: Turn): Action {
    if turn.action.kind == "" && turn.action.content != "" then turn.action.(kind := "respond") else turn.action
  }

  predicate IsGroup(kind: string) {
    kind == "parallel_tools" || kind == "chain_tools"
  }

  predicate Answers(kind: string) {
    kind == "clarify" || kind == "respond"
  }

  /** An action that goes past the gate and the repeat guard. */
  ghost predicate GoesOn(cfg: Config, r: Run, turn: Turn, a: Action) {
    Open(cfg, r, turn, a) && Untired(r, a)
  }

  /** How an iteration ends: the run goes on, it has given its answer, or an exception that
      nothing catches cuts it off. */
  datatype Turnout = Continues | Answered | Failed

  /** An answer whose confidence cannot be read breaks the run off: here, unlike at the gate,
      nothing catches the exception. */
  predicate Breaks(a: Action) {
    a.kind == "respond" && a.confidence.Unparseable?
  }

  /** An action that an exception cuts off: such an answer, a goal or simulation with a count that
      is no number, a parallel group that takes too long, or any other. */
  predicate Cut(turn: Turn, a: Action) {
    || Breaks(a)
    || (a.kind in {"orchestrate_goal", "decompose_goal", "simulate"} && !a.countsReadable)
    || (a.kind == "parallel_tools" && turn.subTools > 0 && turn.groupTimedOut)
    || turn.raised.WhileServing?
  }

  /** A turn whose reply cannot be read: its content is no text, or getting it raised. */
  predicate Unreadable(turn: Turn) {
    turn.raised.WhileReading? || (!turn.exhausted && !turn.contentIsText)
  }

  /** An iteration that an exception cuts off. */
  ghost predicate Troubled(cfg: Config, r: Run, turn: Turn) {
    || Unreadable(turn)
    || (!turn.exhausted && ActionOf(turn).kind != "" && GoesOn(cfg, r, turn, ActionOf(turn))
        && Cut(turn, ActionOf(turn)))
  }

  /** The events that concern an action. */
  predicate Concerns(e: Event, a: Action) {
    Quiet(e) || ((e.GroupStart? || e.ToolStart? || e.ToolResult?) && e.action == a)
  }

  /** What an action that was cut off leaves behind: nothing about any other action. */
  ghost predicate CutOff(before: Run, after: Run, a: Action) {
    before.events <= after.events
    && forall i :: |before.events| <= i < |after.events| ==> Concerns(after.events[i], a)
  }

  /** Where an action is cut off. */
  function ProgressOf(turn: Turn, a: Action): Progress {
    if turn.raised.WhileServing? then turn.raised.upto
    else if a.kind == "parallel_tools" then Started
    else Untouched
  }

  /** An action that was let through and is cut off. */
  method CutShort(cfg: Config, ghost injected: seq<Message>, r0: Run, turn: Turn, a: Action) returns (r: Run)
    requires Sound(cfg, injected, r0)
    requires !Answers(a.kind) && !IsAside(a.kind) ==> LetThrough(cfg, r0, a, GateConfidence(turn, a))
    requires cfg.maxToolCalls > 0 ==> r0.toolCalls < cfg.maxToolCalls
    ensures Sound(cfg, injected, r) && r.passed == r0.passed && CutOff(r0, r, a)
    ensures OnlyStarts(r0.events, r.events, ToolStart(a, GateConfidence(turn, a)))
    ensures !Permitted(turn) || Answers(a.kind) || IsAside(a.kind) ==> NoStarts(r0.events, r.events)
  {
    hide Sound, Conflicts, GUARDED, LetThrough, GateConfidence;
    r := r0;
    var upto := ProgressOf(turn, a);
    if upto == Untouched {
      return;
    }
    if Answers(a.kind) || IsAside(a.kind) {
      r := Noted(cfg, injected, r, Note(a.kind));
      return;
    }
    if IsGroup(a.kind) {
      LetThroughSettled(cfg, r, turn, a);
      GroupKeeps(cfg, injected, r, a, 0);
      r := r.(events := r.events + [GroupStart(a)], toolCalls := r.toolCalls + 0);
      return;
    }
    if !Permitted(turn) {
      r := Noted(cfg, injected, r, Refused(a));
      return;
    }
    StartKeeps(cfg, injected, r, a, GateConfidence(turn, a));
    r := r.(events := r.events + [ToolStart(a, GateConfidence(turn, a))], toolCalls := r.toolCalls + 1);
    if upto == Reported {
      LetThroughSettled(cfg, r0, turn, a);
      ghost var run := RunOf(turn, a);
      var conflict := if Conflicts(a, RunOf(turn, a)) then a.kind + ":interrupted" else r.recentConflict;
      ResultKeeps(cfg, injected, r, a, run, r.evidenceHits, conflict);
      r := r.(events := r.events + [ToolResult(a, RunOf(turn, a))], evidenceHits := r.evidenceHits,
              recentConflict := conflict);
    }
  }

  lemma LetThroughSettled(cfg: Config, r: Run, turn: Turn, a: Action)
    requires LetThrough(cfg, r, a, GateConfidence(turn, a))
    ensures cfg.strict ==> r.recentConflict == ""
  {
  }

  /** An action whose tool is dispatched. */
  ghost predicate Serves(cfg: Config, r: Run, turn: Turn, a: Action) {
    GoesOn(cfg, r, turn, a) && !Answers(a.kind) && !IsAside(a.kind) && !IsGroup(a.kind) && Permitted(turn)
  }

  /** What an action that dispatches no single tool leaves behind, and when it ends the run. */
  ghost predicate Passed(cfg: Config, before: Run, after: Run, turn: Turn, a: Action, end: Turnout) {
    && after.evidenceHits == before.evidenceHits && after.recentConflict == before.recentConflict
    && end != Failed
    && (end == Answered <==> !Open(cfg, before, turn, a) || (GoesOn(cfg, before, turn, a) && Answers(a.kind)))
    && after.toolCalls == before.toolCalls +
         (if GoesOn(cfg, before, turn, a) && IsGroup(a.kind) then CallsOf(turn, a) else 0)
    && (GoesOn(cfg, before, turn, a) && a.kind == "respond" ==> Gives(after, AnswerOf(turn, a)))
  }

  /** What taking an action leads to. */
  ghost predicate Taken(cfg: Config, before: Run, after: Run, turn: Turn, a: Action, end: Turnout) {
    if GoesOn(cfg, before, turn, a) && Cut(turn, a) then end == Failed && CutOff(before, after, a)
    else if Serves(cfg, before, turn, a) then DispatchedAs(before, after, turn, a, end)
    else Passed(cfg, before, after, turn, a, end)
  }

  /** A tool start that its own turn let through: the turn's action, with the confidence it states,
      past the gate's rule and the repeat guard, and permitted by every policy. */
  ghost predicate StartedBy(cfg: Config, before: Run, turn: Turn, a: Action, e: Event) {
    && e == ToolStart(a, GateConfidence(turn, a))
    && Passes(cfg, before, turn, a) && Untired(before, a)
    && turn.personaAllowed && !turn.blocked && turn.approval != Withheld
  }

  /** Events are only added, and every tool start among them is one of those. */
  ghost predicate StartsOwn(cfg: Config, before: Run, after: Run, turn: Turn, a: Action) {
    && before.events <= after.events
    && forall k :: |before.events| <= k < |after.events| && after.events[k].ToolStart? ==>
         StartedBy(cfg, before, turn, a, after.events[k])
  }

  lemma NoneStarted(cfg: Config, before: Run, after: Run, turn: Turn, a: Action)
    requires NoStarts(before.events, after.events)
    ensures StartsOwn(cfg, before, after, turn, a)
  {
  }

  lemma OneStarted(cfg: Config, before: Run, after: Run, turn: Turn, a: Action)
    requires OnlyStarts(before.events, after.events, ToolStart(a, GateConfidence(turn, a)))
    requires !Permitted(turn) ==> NoStarts(before.events, after.events)
    requires Passes(cfg, before, turn, a) && Untired(before, a)
    ensures StartsOwn(cfg, before, after, turn, a)
  {
    hide Passes, Untired, GateConfidence;
  }

  /** A question back to the user ends the run. */
  method AskBack(cfg: Config, injected: seq<Message>, r0: Run) returns (r: Run)
    requires Sound(cfg, injected, r0)
    ensures Ended(cfg, injected, r) && r == r0.(messages := r.messages, events := r.events)
    ensures NoStarts(r0.events, r.events)
  {
    hide Sound, Ended;
    r := Noted(cfg, injected, r0, Clarify([]));
    r := Said(cfg, injected, r, [Message(Assistant, Asks([]))]);
    r := Finish(cfg, injected, r, "I need a clarification before I can continue.");
  }

  method TakeAside(cfg: Config, ghost injected: seq<Message>, r0: Run, a: Action) returns (r: Run)
    requires Sound(cfg, injected, r0)
    ensures Sound(cfg, injected, r) && r == r0.(messages := r.messages, events := r.events)
    ensures NoStarts(r0.events, r.events)
    ensures r.messages == r0.messages + [Message(Assistant, Calls(a)), Message(User, Nudge("Continue."))]
  {
    hide Sound;
    r := Noted(cfg, injected, r0, Note(a.kind));
    r := Replied(cfg, injected, r, a, "Continue.");
  }

  /** Gate, repeat guard, and then whatever the kind of action asks for. */
  method TakeAction(cfg: Config, injected: seq<Message>, r0: Run, turn: Turn, a: Action) returns (r: Run, end: Turnout)
    requires Sound(cfg, injected, r0)
    requires cfg.maxToolCalls > 0 ==> r0.toolCalls < cfg.maxToolCalls
    ensures if end == Answered then Ended(cfg, injected, r) else Sound(cfg, injected, r)
    ensures |r.passed| <= |r0.passed| + 1
    ensures Taken(cfg, r0, r, turn, a, end)
    ensures StartsOwn(cfg, r0, r, turn, a)
  {
    hide Sound, Ended, LetThrough, Open, Dispatched, Untired, Permitted, Signature, Cut, CutOff, Passes,
      GateConfidence, Told, Ungated, Doubted, Gives, AnswerOf, NoStarts, OnlyStarts, StartsOwn;
    end := Continues;
    var through: bool;
    r, through := Gate(cfg, injected, r0, turn, a);
    if !through {
      NoneStarted(cfg, r0, r, turn, a);
      return r, Answered;
    }
    r, through := RepeatGuard(cfg, injected, r, a);
    if !through {
      NoteStartsNothing(r0.events, Refused(a));
      NoneStarted(cfg, r0, r, turn, a);
      return;
    }
    if Cut(turn, a) {
      if !Answers(a.kind) && !IsAside(a.kind) {
        NotUngated(cfg, a);
        StillLetThrough(cfg, r0, r, turn, a);
      }
      ghost var before := r;
      r := CutShort(cfg, injected, r, turn, a);
      SameCut(r0, before, r, a);
      OneStarted(cfg, r0, r, turn, a);
      return r, Failed;
    }
    NotBroken(turn, a);
    if a.kind == "clarify" {
      r := AskBack(cfg, injected, r);
      NoneStarted(cfg, r0, r, turn, a);
      end := Answered;
    } else if a.kind == "respond" {
      r := Respond(cfg, injected, r, turn, a);
      NoneStarted(cfg, r0, r, turn, a);
      end := Answered;
    } else if IsAside(a.kind) {
      r := TakeAside(cfg, injected, r, a);
      NoneStarted(cfg, r0, r, turn, a);
    } else {
      NotUngated(cfg, a);
      StillLetThrough(cfg, r0, r, turn, a);
      if IsGroup(a.kind) {
        r := UseGroup(cfg, injected, r, turn, a);
        NoneStarted(cfg, r0, r, turn, a);
      } else {
        ghost var before := r;
        var over: bool;
        r, over := UseTool(cfg, injected, r, turn, a);
        end := if over then Answered else Continues;
        if Permitted(turn) { SameDispatch(r0, before, r, turn, a, over); }
        OneStarted(cfg, r0, r, turn, a);
      }
    }
  }

  lemma SameCut(r0: Run, before: Run, after: Run, a: Action)
    requires before.events == r0.events && CutOff(before, after, a)
    ensures CutOff(r0, after, a)
  {
  }

  lemma NotBroken(turn: Turn, a: Action)
    requires !Cut(turn, a)
    ensures !Breaks(a)
  {
  }

  lemma NotUngated(cfg: Config, a: Action)
    requires !Answers(a.kind) && !IsAside(a.kind)
    ensures !Ungated(cfg, a)
  {
  }

  /** A dispatch is judged by the counters alone. */
  lemma SameDispatch(r0: Run, before: Run, after: Run, turn: Turn, a: Action, over: bool)
    requires before.evidenceHits == r0.evidenceHits && before.recentConflict == r0.recentConflict
    requires before.toolCalls == r0.toolCalls && Dispatched(before, after, turn, a, over)
    requires before.messages == r0.messages && before.filesRead == r0.filesRead
    ensures Dispatched(r0, after, turn, a, over)
  {
    hide Conflicts, BlockerReason, EVIDENCE, RunOf, IsClip;
  }

  /** A dispatch never breaks a run off. */
  ghost predicate DispatchedAs(before: Run, after: Run, turn: Turn, a: Action, end: Turnout) {
    end != Failed && Dispatched(before, after, turn, a, end == Answered)
  }

  /** The events and messages of a run do not sway the gate or the guard. */
  lemma SameGate(cfg: Config, r0: Run, r: Run, turn: Turn, a: Action)
    requires r == r0.(events := r.events)
    ensures Open(cfg, r, turn, a) <==> Open(cfg, r0, turn, a)
    ensures Untired(r, a) <==> Untired(r0, a)
  {
    hide Doubted, DESTRUCTIVE, Gated, Signature;
    assert ProposalFor(cfg, r, turn, a) == ProposalFor(cfg, r0, turn, a);
  }

  /** What one iteration may do, from `before` to `after`. */
  ghost predicate Iterated(cfg: Config, before: Run, after: Run, turn: Turn, end: Turnout) {
    var a := ActionOf(turn);
    if Unreadable(turn) then end == Failed && CutOff(before, after, a)
    else if turn.exhausted then end == Answered
    else if a.kind == "" then end == Continues && after == before.(messages := after.messages, events := after.events)
    else Taken(cfg, before, after, turn, a, end)
  }

  /** The same run with a few notes more. */
  ghost predicate OnlyNotes(before: Run, after: Run) {
    && after == before.(events := after.events) && before.events <= after.events
    && forall i :: |before.events| <= i < |after.events| ==> Quiet(after.events[i])
  }

  /** A note, if there is something to note. */
  method Mentioned(cfg: Config, ghost injected: seq<Message>, ghost r0: Run, r: Run, some: bool, kind: string)
    returns (next: Run)
    requires Sound(cfg, injected, r) && OnlyNotes(r0, r)
    ensures Sound(cfg, injected, next) && OnlyNotes(r0, next)
  {
    hide Sound;
    next := r;
    if some {
      next := Noted(cfg, injected, next, Note(kind));
    }
  }

  /** The rest of an iteration, once the budget and the stop flag have been looked at: which
      iterations dispatch a tool, which end the run, and what becomes of the counters. */
  method Act(cfg: Config, injected: seq<Message>, r0: Run, turn: Turn) returns (r: Run, end: Turnout)
    requires Sound(cfg, injected, r0)
    requires cfg.maxToolCalls > 0 ==> r0.toolCalls < cfg.maxToolCalls
    ensures if end == Answered then Ended(cfg, injected, r) else Sound(cfg, injected, r)
    ensures |r.passed| <= |r0.passed| + 1
    ensures Iterated(cfg, r0, r, turn, end)
    ensures StartsOwn(cfg, r0, r, turn, ActionOf(turn))
  {
    hide Sound, Ended, Taken, StartsOwn, OnlyNotes, NoStarts, CutOff;
    NotesAre(cfg, r0, r0, turn);
    r, end := r0, Continues;
    if turn.raised.WhileReading? {
      return r, Failed;
    }
    if turn.exhausted {
      r := Finish(cfg, injected, r, "I could not reach any model provider for this turn.");
      NothingStarted(cfg, r0, r, turn);
      return r, Answered;
    }
    r := Mentioned(cfg, injected, r0, r, turn.ensemble, "ensemble");
    NotesAre(cfg, r0, r, turn);
    if !turn.contentIsText {
      return r, Failed;
    }
    r := Mentioned(cfg, injected, r0, r, turn.fallback, "fallback");
    NotesAre(cfg, r0, r, turn);
    ghost var before := r;
    var a := turn.action;
    if a.kind == "" {
      if a.content == "" {
        r := Replied(cfg, injected, r, a, "Your last response was not a valid JSON action object.");
        NothingStarted(cfg, r0, r, turn);
        return;
      }
      a := a.(kind := "respond");
    }
    r, end := TakeAction(cfg, injected, r, turn, a);
    SameTaken(cfg, r0, before, r, turn, a, end);
    SameStarts(cfg, r0, before, r, turn, a);
  }

  lemma NotesAre(cfg: Config, before: Run, after: Run, turn: Turn)
    requires before == after || OnlyNotes(before, after)
    ensures OnlyNotes(before, after) && NoStarts(before.events, after.events)
    ensures after == before.(events := after.events)
    ensures CutOff(before, after, ActionOf(turn)) && StartsOwn(cfg, before, after, turn, ActionOf(turn))
  {
    hide StartedBy;
  }

  lemma NothingStarted(cfg: Config, before: Run, after: Run, turn: Turn)
    requires NoStarts(before.events, after.events)
    ensures StartsOwn(cfg, before, after, turn, ActionOf(turn))
  {
    NoneStarted(cfg, before, after, turn, ActionOf(turn));
  }

  lemma SameStarts(cfg: Config, r0: Run, before: Run, after: Run, turn: Turn, a: Action)
    requires OnlyNotes(r0, before) && StartsOwn(cfg, before, after, turn, a)
    ensures StartsOwn(cfg, r0, after, turn, a)
  {
    hide Permitted, GateConfidence, Signature, Trim, DESTRUCTIVE, HIGH_RISK, EVIDENCE_REQUIRED, EXECUTION_CONTRACT,
      Confident;
    assert forall i :: |r0.events| <= i < |before.events| ==> after.events[i] == before.events[i];
  }

  /** A few notes in front change nothing about how an action is taken. */
  lemma SameTaken(cfg: Config, r0: Run, before: Run, after: Run, turn: Turn, a: Action, end: Turnout)
    requires OnlyNotes(r0, before) && Taken(cfg, before, after, turn, a, end)
    ensures Taken(cfg, r0, after, turn, a, end)
  {
    hide Open, Dispatched, Untired, Permitted, IsAside, IsGroup, Answers, CallsOf, Cut, Signature, Gives, AnswerOf;
    SameGate(cfg, r0, before, turn, a);
    if GoesOn(cfg, r0, turn, a) && Cut(turn, a) {
      forall i | |r0.events| <= i < |after.events| ensures Concerns(after.events[i], a) {
        if i < |before.events| { assert after.events[i] == before.events[i]; }
      }
    } else if Serves(cfg, r0, turn, a) {
      SameDispatch(r0, before, after, turn, a, end == Answered);
    }
  }

  /** An iteration fails exactly when it is troubled. */
  lemma FailedIff(cfg: Config, before: Run, after: Run, turn: Turn, end: Turnout)
    requires Iterated(cfg, before, after, turn, end)
    ensures end == Failed <==> Troubled(cfg, before, turn)
  {
    hide Open, Untired, Dispatched, Cut, CutOff;
  }

  lemma StillLetThrough(cfg: Config, before: Run, r: Run, turn: Turn, a: Action)
    requires LetThrough(cfg, before, a, GateConfidence(turn, a))
    requires r.evidenceHits == before.evidenceHits && r.recentConflict == before.recentConflict
    ensures LetThrough(cfg, r, a, GateConfidence(turn, a)) && (cfg.strict ==> r.recentConflict == "")
  {
  }

  predicate OverBudget(cfg: Config, r: Run, turn: Turn) {
    turn.overTime || (cfg.maxToolCalls > 0 && r.toolCalls >= cfg.maxToolCalls)
  }

  /** An iteration that gets as far as asking the model. */
  predicate Reaches(cfg: Config, r: Run, turn: Turn) {
    !OverBudget(cfg, r, turn) && !turn.stopped
  }

  /** The states a run goes through, one iteration after the other, without a reason to end. */
  ghost predicate Traced(cfg: Config, trace: seq<Run>, turns: nat -> Turn) {
    trace != [] && forall i: nat :: i < |trace| - 1 ==>
      (!OverBudget(cfg, trace[i], turns(i)) && !turns(i).stopped
       && Iterated(cfg, trace[i], trace[i + 1], turns(i), Continues))
  }

  lemma TraceOn(cfg: Config, trace: seq<Run>, turns: nat -> Turn, next: Run)
    requires Traced(cfg, trace, turns)
    requires var last := |trace| - 1;
      && !OverBudget(cfg, trace[last], turns(last)) && !turns(last).stopped
      && Iterated(cfg, trace[last], next, turns(last), Continues)
    ensures Traced(cfg, trace + [next], turns)
  {
    hide Iterated, OverBudget;
  }

  /** Why a run ended. */
  datatype Ending = AnsweredDirectly | BudgetSpent | StoppedByUser | EndedByAction | BrokenOff | OutOfSteps

  ghost predicate EndedFor(
      cfg: Config, trace: seq<Run>, turns: nat -> Turn, r: Run, ending: Ending, steps: nat)
    requires trace != []
  {
    var last := trace[|trace| - 1];
    match ending
    case AnsweredDirectly => false
    case OutOfSteps => steps == MAX_LOOP && |trace| == MAX_LOOP + 1
    case BudgetSpent => steps == |trace| && OverBudget(cfg, last, turns(steps - 1))
    case StoppedByUser =>
      steps == |trace| && !OverBudget(cfg, last, turns(steps - 1)) && turns(steps - 1).stopped
    case EndedByAction =>
      steps == |trace| && !OverBudget(cfg, last, turns(steps - 1)) && !turns(steps - 1).stopped
      && Iterated(cfg, last, r, turns(steps - 1), Answered)
    case BrokenOff =>
      steps == |trace| && !OverBudget(cfg, last, turns(steps - 1)) && !turns(steps - 1).stopped
      && Iterated(cfg, last, r, turns(steps - 1), Failed)
  }

  /** Every tool start of a run was let through on its own turn: that turn's action and signals,
      and the state the run was in by then. */
  ghost predicate AllStarted(cfg: Config, trace: seq<Run>, turns: nat -> Turn, events: seq<Event>) {
    forall e :: e in events && e.ToolStart? ==>
      exists i: nat :: i < |trace| && StartedBy(cfg, trace[i], turns(i), ActionOf(turns(i)), e)
  }

  lemma StartedOn(cfg: Config, trace: seq<Run>, turns: nat -> Turn, next: Run)
    requires trace != [] && AllStarted(cfg, trace, turns, trace[|trace| - 1].events)
    requires var last := |trace| - 1; StartsOwn(cfg, trace[last], next, turns(last), ActionOf(turns(last)))
    ensures AllStarted(cfg, trace, turns, next.events) && AllStarted(cfg, trace + [next], turns, next.events)
  {
    hide StartedBy;
    var last: nat := |trace| - 1;
    var before := trace[last].events;
    forall e | e in next.events && e.ToolStart?
      ensures exists i: nat :: i < |trace| && StartedBy(cfg, trace[i], turns(i), ActionOf(turns(i)), e)
      ensures exists i: nat ::
        i < |trace + [next]| && StartedBy(cfg, (trace + [next])[i], turns(i), ActionOf(turns(i)), e)
    {
      var k :| 0 <= k < |next.events| && next.events[k] == e;
      var i: nat := last;
      if k < |before| {
        assert before[k] in before;
        i :| i < |trace| && StartedBy(cfg, trace[i], turns(i), ActionOf(turns(i)), e);
      }
      assert StartedBy(cfg, trace[i], turns(i), ActionOf(turns(i)), e) && (trace + [next])[i] == trace[i];
    }
  }

  lemma StartedStays(cfg: Config, trace: seq<Run>, turns: nat -> Turn, before: seq<Event>, after: seq<Event>)
    requires AllStarted(cfg, trace, turns, before) && NoStarts(before, after)
    ensures AllStarted(cfg, trace, turns, after)
  {
    hide StartedBy;
    forall e | e in after && e.ToolStart?
      ensures exists i: nat :: i < |trace| && StartedBy(cfg, trace[i], turns(i), ActionOf(turns(i)), e)
    {
      var k :| 0 <= k < |after| && after[k] == e;
      assert k < |before| && before[k] in before;
    }
  }

  lemma NoneIsStarted(cfg: Config, trace: seq<Run>, turns: nat -> Turn, events: seq<Event>)
    requires NoStarts([], events)
    ensures AllStarted(cfg, trace, turns, events)
  {
  }

  /** Some iteration of the run asked the model and was cut off by an exception. */
  ghost predicate SomeTrouble(cfg: Config, trace: seq<Run>, turns: nat -> Turn) {
    exists i: nat ::
      i < |trace| && i < MAX_LOOP && Reaches(cfg, trace[i], turns(i)) && Troubled(cfg, trace[i], turns(i))
  }

  /** A run is broken off exactly when that happened. */
  lemma BrokenOffIff(cfg: Config, trace: seq<Run>, turns: nat -> Turn, r: Run, ending: Ending, steps: nat)
    requires Traced(cfg, trace, turns) && EndedFor(cfg, trace, turns, r, ending, steps) && steps <= MAX_LOOP
    ensures ending.BrokenOff? <==> SomeTrouble(cfg, trace, turns)
  {
    hide Iterated, Troubled, OverBudget;
    var last := |trace| - 1;
    forall i: nat | i < last ensures !Troubled(cfg, trace[i], turns(i)) {
      FailedIff(cfg, trace[i], trace[i + 1], turns(i), Continues);
    }
    match ending
    case EndedByAction => FailedIff(cfg, trace[last], r, turns(last), Answered);
    case BrokenOff => FailedIff(cfg, trace[last], r, turns(last), Failed);
    case _ =>
  }

  /** One run, of at most `MAX_LOOP` iterations. Exactly one answer ends it, and none exactly when
      an exception that nothing catches cuts an iteration off. Guarded actions started only after
      evidence and with a confidence not below the floor; in strict mode a conflicting result
      was the last thing dispatched; the tool budget held; no signature got past the repeat
      guard three times, nor a listing twice. The injected messages are still in front,
      untouched, and the answer's history leaves them out, unless the run was stopped.
      `trace` shows the iterations: the run goes on as long as nothing ends it, and ends for
      the reason it gives. */
  method StreamAgentTask(cfg: Config, task: Task, turns: nat -> Turn)
    returns (r: Run, injected: seq<Message>, ending: Ending, steps: nat, ghost trace: seq<Run>)
    ensures steps <= MAX_LOOP && |r.passed| <= steps
    ensures if ending.BrokenOff? then NotDone(r.events) else AnsweredOnce(r.events)
    ensures GuardedStarts(r.events)
    ensures cfg.strict ==> ConflictIsLast(r.events)
    ensures cfg.maxToolCalls > 0 ==> ToolStarts(r.events) <= cfg.maxToolCalls
    ensures RepeatsBounded(r.passed)
    ensures injected == InjectedFor(task) && Prefixed(injected, r.messages)
    ensures !ending.BrokenOff? ==>
      r.events[|r.events| - 1].history == if ending.StoppedByUser? then r.messages else r.messages[|injected|..]
    ensures ending.AnsweredDirectly? <==> task.direct.Some? && !task.hasFiles
    ensures !ending.AnsweredDirectly? ==> Traced(cfg, trace, turns) && EndedFor(cfg, trace, turns, r, ending, steps)
    ensures ending.BrokenOff? <==> !ending.AnsweredDirectly? && SomeTrouble(cfg, trace, turns)
    ensures AllStarted(cfg, trace, turns, r.events)
    ensures ending.AnsweredDirectly? ==> Gives(r, task.direct.value)
    ensures ending.OutOfSteps? ==> Gives(r, task.forced)
    ensures ending.StoppedByUser? ==> Gives(r, "*(Stopped)*")
  {
    hide Sound, Ended, Gives, GuardedStarts, ConflictIsLast, ToolStarts, RepeatsBounded, AnsweredOnce, Prefixed,
      LetThrough, Iterated, Traced, Pair, SomeTrouble, AllStarted, NoStarts, StartsOwn;
    steps, trace := 0, [];
    if task.direct.Some? && !task.hasFiles {
      injected := [];
      r := Direct(cfg, task);
      EndedDelivers(cfg, injected, r);
      NoneIsStarted(cfg, trace, turns, r.events);
      ending := AnsweredDirectly;
      return;
    }
    injected := Pair(task.memory) + Pair(task.knowledge);
    r := Opening(cfg, task, injected);
    trace := [r];
    TraceStarts(cfg, r, turns);
    NoneIsStarted(cfg, trace, turns, r.events);
    while steps < MAX_LOOP
      invariant steps <= MAX_LOOP && |r.passed| <= steps && Sound(cfg, injected, r)
      invariant |trace| == steps + 1 && trace[steps] == r && Traced(cfg, trace, turns)
      invariant AllStarted(cfg, trace, turns, r.events)
    {
      ghost var before := r.events;
      var turn := turns(steps);
      steps := steps + 1;
      if OverBudget(cfg, r, turn) {
        r := Noted(cfg, injected, r, Note("budget_exceeded"));
        NoteStartsNothing(before, Note("budget_exceeded"));
        StartedStays(cfg, trace, turns, before, r.events);
        before := r.events;
        r := Finish(cfg, injected, r, "Budget exceeded.");
        StartedStays(cfg, trace, turns, before, r.events);
        EndedDelivers(cfg, injected, r);
        ending := BudgetSpent;
        BrokenOffIff(cfg, trace, turns, r, ending, steps);
        return;
      }
      if turn.stopped {
        r := Stop(cfg, injected, r);
        StartedStays(cfg, trace, turns, before, r.events);
        ending := StoppedByUser;
        BrokenOffIff(cfg, trace, turns, r, ending, steps);
        return;
      }
      var end: Turnout;
      r, end := Act(cfg, injected, r, turn);
      StartedOn(cfg, trace, turns, r);
      if end == Failed {
        SoundDelivers(cfg, injected, r);
        ending := BrokenOff;
        BrokenOffIff(cfg, trace, turns, r, ending, steps);
        return;
      }
      if end == Answered {
        EndedDelivers(cfg, injected, r);
        ending := EndedByAction;
        BrokenOffIff(cfg, trace, turns, r, ending, steps);
        return;
      }
      TraceOn(cfg, trace, turns, r);
      trace := trace + [r];
    }
    ghost var before := r.events;
    r := Finish(cfg, injected, r, task.forced);
    StartedStays(cfg, trace, turns, before, r.events);
    EndedDelivers(cfg, injected, r);
    ending := OutOfSteps;
    BrokenOffIff(cfg, trace, turns, r, ending, steps);
  }

  lemma NoteStartsNothing(events: seq<Event>, e: Event)
    requires Quiet(e)
    ensures NoStarts(events, events + [e])
  {
  }

  lemma TraceStarts(cfg: Config, r: Run, turns: nat -> Turn)
    ensures Traced(cfg, [r], turns)
  {
  }
}
