/** The agent loop's rules said in terms of the task, the turn and the texts alone: which calls count
    as the same, what counts as a blocker or a failure, what is dispatched, and what is answered. */
module AgentRules {
  import opened Wrappers
  import opened Text
  import opened AgentGate
  import opened AgentLoop

  // ---------- which calls are the same ----------

  predicate Bare(s: string) {
    '|' !in s
  }

  /** The fields that tell calls apart hold no separator and fit into the signature. */
  predicate Telling(a: Action) {
    && Bare(a.kind) && Bare(a.url) && Bare(a.destPath) && Bare(a.path) && Bare(a.cmd) && Bare(a.query)
    && Bare(a.name) && Bare(a.repoUrl)
    && |a.kind| + |a.url| + |a.destPath| + |a.path| + |a.cmd| + |a.query| + |a.name| + |a.repoUrl| + 7 <= 800
  }

  /** The parts in front of and behind the first separator are determined by the text. */
  lemma FirstPart(a: string, x: string, b: string, y: string)
    requires Bare(a) && Bare(b) && a + "|" + x == b + "|" + y
    ensures a == b && x == y
  {
    var s, t := a + "|" + x, b + "|" + y;
    assert s[|a|] == '|' && t[|b|] == '|';
    assert forall i :: 0 <= i < |a| ==> s[i] != '|';
    assert forall i :: 0 <= i < |b| ==> t[i] != '|';
    assert a == s[..|a|] && b == t[..|b|] && x == s[|a| + 1..] && y == t[|b| + 1..];
  }

  function Joined(parts: seq<string>): string
    requires parts != []
  {
    if |parts| == 1 then parts[0] else parts[0] + "|" + Joined(parts[1..])
  }

  lemma {:induction false} JoinedTells(p: seq<string>, q: seq<string>)
    requires p != [] && |p| == |q| && Joined(p) == Joined(q)
    requires forall i :: 0 <= i < |p| ==> Bare(p[i]) && Bare(q[i])
    ensures p == q
  {
    if |p| > 1 {
      FirstPart(p[0], Joined(p[1..]), q[0], Joined(q[1..]));
      JoinedTells(p[1..], q[1..]);
      assert p == [p[0]] + p[1..] && q == [q[0]] + q[1..];
    }
  }

  function Parts(a: Action): seq<string> {
    [a.kind, a.url, a.destPath, a.path, a.cmd, a.query, a.name, a.repoUrl]
  }

  lemma SignatureIsJoined(a: Action)
    requires Telling(a)
    ensures Signature(a) == Joined(Parts(a))
  {
    var p := Parts(a);
    assert p[1..][1..] == p[2..] && p[2..][1..] == p[3..] && p[3..][1..] == p[4..] && p[4..][1..] == p[5..];
    assert p[5..][1..] == p[6..] && p[6..][1..] == p[7..] && p[7..] == [a.repoUrl];
    assert Joined(p[6..]) == a.name + "|" + a.repoUrl;
    assert Joined(p[5..]) == a.query + "|" + Joined(p[6..]);
    assert Joined(p[4..]) == a.cmd + "|" + Joined(p[5..]);
    assert Joined(p[3..]) == a.path + "|" + Joined(p[4..]);
    assert Joined(p[2..]) == a.destPath + "|" + Joined(p[3..]);
    assert Joined(p[1..]) == a.url + "|" + Joined(p[2..]);
    assert Joined(p) == a.kind + "|" + Joined(p[1..]);
    RightToLeft(a);
  }

  lemma RightToLeft(a: Action)
    ensures a.kind + "|" + a.url + "|" + a.destPath + "|" + a.path + "|" + a.cmd + "|" + a.query + "|" + a.name
              + "|" + a.repoUrl
      == a.kind + "|" + (a.url + "|" + (a.destPath + "|" + (a.path + "|" + (a.cmd + "|" + (a.query + "|"
         + (a.name + "|" + a.repoUrl))))))
  {
  }

  /** Two such calls have the same signature exactly when they agree on kind and target. */
  lemma SignatureTells(a: Action, b: Action)
    requires Telling(a) && Telling(b)
    ensures Signature(a) == Signature(b) <==>
      && a.kind == b.kind && a.url == b.url && a.destPath == b.destPath && a.path == b.path && a.cmd == b.cmd
      && a.query == b.query && a.name == b.name && a.repoUrl == b.repoUrl
  {
    hide Signature;
    SignatureIsJoined(a);
    SignatureIsJoined(b);
    if Signature(a) == Signature(b) {
      JoinedTells(Parts(a), Parts(b));
      assert forall i :: 0 <= i < 8 ==> Parts(a)[i] == Parts(b)[i];
      assert Parts(a)[0] == a.kind && Parts(a)[1] == a.url && Parts(a)[2] == a.destPath && Parts(a)[3] == a.path;
      assert Parts(a)[4] == a.cmd && Parts(a)[5] == a.query && Parts(a)[6] == a.name && Parts(a)[7] == a.repoUrl;
    }
  }

  // ---------- what a result means ----------

  /** The text holds the part, capital letters aside. */
  ghost predicate Mentions(text: string, part: string) {
    exists t, front, back :: IsLower(text, t) && t == front + part + back
  }

  lemma ContainsIs(text: string, part: string)
    ensures Contains(Lower(text), part) <==> Mentions(text, part)
  {
    hide Lower, IsLower;
    var t := Lower(text);
    LowerIs(text);
    if Contains(t, part) {
      var i :| 0 <= i <= |t| && part <= t[i..];
      assert t == t[..i] + part + t[i + |part|..];
    }
    if Mentions(text, part) {
      var u, front, back :| IsLower(text, u) && u == front + part + back;
      SameLower(text, u, t);
      assert t[|front|..] == part + back;
    }
  }

  lemma SameLower(s: string, u: string, t: string)
    requires IsLower(s, u) && IsLower(s, t)
    ensures u == t
  {
    assert forall i :: 0 <= i < |s| ==> u[i] == t[i];
  }

  /** A result is a hard blocker when it speaks of missing mounts, of memory, or, from a clone, of a
      fetch that failed or timed out. */
  lemma BlockerIs(kind: string, text: string)
    ensures BlockerReason(kind, text) != "" <==>
      || Mentions(text, "host mount paths are not available in this runtime")
      || Mentions(text, "packfile cannot be mapped") || Mentions(text, "cannot allocate memory")
      || (kind == "clone_repo" && (Mentions(text, "both api fetch and git clone failed")
                                   || Mentions(text, "operation timed out") || Mentions(text, "timed out")))
  {
    hide Contains, Mentions, Lower;
    ContainsIs(text, "host mount paths are not available in this runtime");
    ContainsIs(text, "packfile cannot be mapped");
    ContainsIs(text, "cannot allocate memory");
    ContainsIs(text, "both api fetch and git clone failed");
    ContainsIs(text, "operation timed out");
    ContainsIs(text, "timed out");
  }

  /** A result leaves a conflict when it is a blocker, when its status says error or blocked, or, for
      plain text that is no evidence, when it mentions a failure. */
  lemma ConflictIs(a: Action, run: ToolRun)
    ensures Conflicts(a, run) <==>
      || BlockerReason(a.kind, run.text) != ""
      || (run.Builtin? && (IsLower(run.status, "error") || IsLower(run.status, "blocked")))
      || (run.Plain? && a.kind !in EVIDENCE
          && (Mentions(run.text, "failed") || Mentions(run.text, "error") || Mentions(run.text, "not found")))
  {
    hide Contains, Mentions, Lower, BlockerReason, IsLower;
    ContainsIs(run.text, "failed");
    ContainsIs(run.text, "error");
    ContainsIs(run.text, "not found");
    if run.Builtin? { LowerNames(run.status); }
  }

  lemma LowerNames(status: string)
    ensures IsLower(status, "error") <==> Lower(status) == "error"
    ensures IsLower(status, "blocked") <==> Lower(status) == "blocked"
  {
    LowerIs(status);
    if IsLower(status, "error") { SameLower(status, "error", Lower(status)); }
    if IsLower(status, "blocked") { SameLower(status, "blocked", Lower(status)); }
  }

  // ---------- what is dispatched ----------

  /** The action of a turn: what the reply proposes, and text without an action is an answer. */
  lemma ActionIs(turn: Turn)
    ensures ActionOf(turn) == turn.action.(kind := ActionOf(turn).kind)
    ensures ActionOf(turn).kind ==
      if turn.action.kind != "" then turn.action.kind else if turn.action.content == "" then "" else "respond"
  {
  }

  /** The kinds that are dangerous, by what they share. */
  lemma KindsAre()
    ensures HIGH_RISK == EVIDENCE_REQUIRED + {"write_file", "clone_repo"}
    ensures EVIDENCE_REQUIRED == EXECUTION_CONTRACT == GUARDED + {"query_db", "inspect_db"}
    ensures DESTRUCTIVE == GUARDED + {"clone_repo"}
    ensures GUARDED == {"delete_file", "run_command", "commit_push", "create_repo", "api_call", "db_migrate"}
    ensures EVIDENCE == {"read_file", "read_page", "web_search", "rag_query", "api_call", "query_db", "inspect_db"}
  {
  }

  /** Missing parameters weigh most, then contradictions and thin evidence; the finer points of the
      contract least. */
  lemma WeightIs(r: Reason)
    ensures Weight(r) * 20.0 ==
      if r == MissingParameters then 6.0
      else if r == ConflictingInstructions || r == WeakRetrievalEvidence then 5.0
      else if r == UnsafeSideEffects then 3.0
      else if r == MissingConstraints || r == MissingOutputFormat then 2.0
      else 4.0
  {
  }

  /** The kinds that the loop serves itself. */
  const OWN: set<string> := {
    "clarify", "respond", "plan", "think", "think_deep", "sub_agent", "orchestrate_goal", "decompose_goal", "simulate",
    "agent_message", "parallel_tools", "chain_tools"}

  /** A single tool is dispatched exactly for another kind that passes the gate's rule and the repeat
      guard and that no policy holds up; it is a built-in one exactly when there is one and the kind
      is not the workspace's. */
  lemma ServesIs(cfg: Config, r: Run, turn: Turn, a: Action)
    ensures Serves(cfg, r, turn, a) <==>
      && a.kind !in OWN && Passes(cfg, r, turn, a)
      && (Signature(a) !in r.attempts || r.attempts[Signature(a)] == 0
          || (a.kind != "list_files" && r.attempts[Signature(a)] == 1))
      && turn.personaAllowed && !turn.blocked && turn.approval != Withheld
    ensures RunOf(turn, a) ==
      if turn.builtinStatus.Some? && a.kind != "web_search" && a.kind != "write_file" && a.kind != "read_file"
         && a.kind != "list_files" && a.kind != "delete_file"
      then Builtin(turn.builtinStatus.value, turn.text) else Plain(turn.text)
  {
    hide Passes, Open, Signature;
    OpenIsPassing(cfg, r, turn, a);
  }

  /** An iteration is cut off when the reply cannot be read, or when an action that goes on is an
      answer without a readable confidence, a goal or simulation without readable counts, a parallel
      group that timed out, or raises while it is served. */
  lemma TroubledIs(cfg: Config, r: Run, turn: Turn)
    ensures var a := ActionOf(turn);
      Troubled(cfg, r, turn) <==>
      || turn.raised == WhileReading
      || (!turn.exhausted
          && (!turn.contentIsText
              || (a.kind != "" && Passes(cfg, r, turn, a) && Untired(r, a)
                  && ((a.kind == "respond" && a.confidence == Unparseable)
                      || ((a.kind == "orchestrate_goal" || a.kind == "decompose_goal" || a.kind == "simulate")
                          && !a.countsReadable)
                      || (a.kind == "parallel_tools" && turn.subTools > 0 && turn.groupTimedOut)
                      || turn.raised.WhileServing?))))
  {
    hide Passes, Open, Untired, ActionOf;
    OpenIsPassing(cfg, r, turn, ActionOf(turn));
  }

  /** No iteration but the last found the budget spent or the stop flag set; the last one found one
      of them exactly when the run ended for it, the budget first. */
  lemma EndingIs(cfg: Config, trace: seq<Run>, turns: nat -> Turn, r: Run, ending: Ending, steps: nat)
    requires Traced(cfg, trace, turns) && EndedFor(cfg, trace, turns, r, ending, steps)
    ensures var spent := (i: nat) requires i < |trace| =>
        turns(i).overTime || (cfg.maxToolCalls > 0 && trace[i].toolCalls >= cfg.maxToolCalls);
      && (forall i: nat :: i < |trace| - 1 ==> !spent(i) && !turns(i).stopped)
      && (steps == |trace| ==>
            && (spent(steps - 1) <==> ending == BudgetSpent)
            && (!spent(steps - 1) && turns(steps - 1).stopped <==> ending == StoppedByUser))
      && (ending == OutOfSteps <==> steps != |trace|) && (ending == OutOfSteps ==> steps == 24)
  {
    hide Iterated;
  }

  // ---------- what is said ----------

  /** The answer is never blank. It is the model's own, or a fixed text where that is blank; it is the
      trimmed revision exactly when the confidence stated with the answer is below three quarters and
      both texts are long enough. */
  lemma AnswerIs(turn: Turn, a: Action)
    ensures !AllSpace(AnswerOf(turn, a))
    ensures var own := if AllSpace(a.content) then "*(No content received from AI provider.)*" else a.content;
      var unsure := match a.confidence
        case States(Finite(v)) => v < 0.75
        case States(MinusInfinity) => true
        case _ => false;
      exists revised :: IsTrimmed(turn.revised, revised)
        && AnswerOf(turn, a) == if unsure && |own| > 40 && |revised| > 20 then revised else own
  {
    hide Trim, IsTrimmed;
    TrimIs(turn.revised);
    TrimmedBlank(a.content);
    if AnswerOf(turn, a) == Trim(turn.revised) && |Trim(turn.revised)| > 20 {
      TrimmedIsNotBlank(turn.revised);
    } else {
      assert !IsSpace("*(No content received from AI provider.)*"[0]);
    }
  }

  lemma TrimmedIsNotBlank(s: string)
    requires Trim(s) != ""
    ensures !AllSpace(Trim(s))
  {
  }

  /** A direct answer injects nothing; otherwise what memory holds comes before what the knowledge
      base found, each followed by an acknowledgement. */
  lemma InjectedIs(task: Task)
    ensures task.direct.Some? && !task.hasFiles ==> InjectedFor(task) == []
    ensures !(task.direct.Some? && !task.hasFiles) ==>
      var m, k := if task.memory.Some? then 2 else 0, if task.knowledge.Some? then 2 else 0;
      && |InjectedFor(task)| == m + k
      && (task.memory.Some? ==> InjectedFor(task)[0] == Message(User, Says(task.memory.value)))
      && (task.knowledge.Some? ==> InjectedFor(task)[m] == Message(User, Says(task.knowledge.value)))
      && forall i :: 0 <= i < m + k && i % 2 == 1 ==> InjectedFor(task)[i].role == Assistant
  {
  }
}
