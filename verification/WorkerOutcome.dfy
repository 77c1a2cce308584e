/** What a worker run did and returned, in terms of the replies and the tools' results it was
    given (internal/agent/worker.go), and what the dispatcher's breaker makes of it
    (internal/agent/orchestrated.go, isStalledResult). */
module WorkerOutcome {
  import opened Base
  import opened Messages
  import opened Worker
  import D = Dispatcher
  import V = Verification

  // ---- What a turn puts into the conversation ----

  /** The message answers the call with its tool's output or error on that conversation. */
  ghost predicate Shows(env: Env, before: seq<Message>, call: ToolCall, m: Message) {
    match env.act(before, call)
    case Output(text) => m == ToolMessage(call.id, text)
    case ActError(err) => m == ToolMessage(call.id, "[tool " + call.name + " error: " + err + "]")
  }

  /** The same for a write made on the model's behalf. */
  ghost predicate ShowsWrite(env: Env, before: seq<Message>, call: ToolCall, m: Message) {
    match env.act(before, call)
    case Output(text) => m == ToolMessage(call.id, text)
    case ActError(err) => m == ToolMessage(call.id, "[interceptor write failed: " + err + "]")
  }

  ghost predicate ShowsAt(env: Env, grown: seq<Message>, a: nat, calls: seq<ToolCall>, i: nat)
    requires i < |calls|
  {
    a + i < |grown| && Shows(env, grown[..a + i], calls[i], grown[a + i])
  }

  ghost predicate ShowsWriteAt(env: Env, grown: seq<Message>, a: nat, calls: seq<ToolCall>, i: nat)
    requires i < |calls|
  {
    a + i < |grown| && ShowsWrite(env, grown[..a + i], calls[i], grown[a + i])
  }

  /** The first n calls are answered one after the other from a position on. */
  ghost predicate ShowAll(env: Env, grown: seq<Message>, a: nat, calls: seq<ToolCall>, n: nat)
    requires n <= |calls|
  {
    forall i {:trigger ShowsAt(env, grown, a, calls, i)} | 0 <= i < n :: ShowsAt(env, grown, a, calls, i)
  }

  lemma {:induction false} ShowOn(env: Env, grown: seq<Message>, more: seq<Message>, a: nat, run: seq<ToolCall>,
                                  calls: seq<ToolCall>, n: nat)
    requires grown <= more && n <= |run| && n <= |calls| && forall i | 0 <= i < n :: run[i] == calls[i]
    requires ShowAll(env, grown, a, run, n)
    ensures ShowAll(env, more, a, calls, n)
  {
    forall i | 0 <= i < n ensures ShowsAt(env, more, a, calls, i) {
      assert ShowsAt(env, grown, a, run, i);
      assert more[..a + i] == grown[..a + i];
    }
  }

  lemma {:induction false} AnsweredShows(env: Env, messages: seq<Message>, calls: seq<ToolCall>)
    ensures var grown := Answered(env, messages, calls);
            messages <= grown && |grown| == |messages| + |calls| && ShowAll(env, grown, |messages|, calls, |calls|)
  {
    if calls != [] {
      var n := |calls| - 1;
      var before, grown := Answered(env, messages, calls[..n]), Answered(env, messages, calls);
      AnsweredShows(env, messages, calls[..n]);
      ShowOn(env, before, grown, |messages|, calls[..n], calls, n);
      assert grown[..|messages| + n] == before;
      assert ShowsAt(env, grown, |messages|, calls, n);
    }
  }

  lemma {:induction false} InterceptedShows(env: Env, messages: seq<Message>, calls: seq<ToolCall>)
    ensures var grown := Intercepted(env, messages, calls);
            && messages <= grown && |grown| == |messages| + |calls|
            && forall i {:trigger ShowsWriteAt(env, grown, |messages|, calls, i)} | 0 <= i < |calls| ::
                 ShowsWriteAt(env, grown, |messages|, calls, i)
  {
    if calls != [] {
      var n := |calls| - 1;
      var before, grown := Intercepted(env, messages, calls[..n]), Intercepted(env, messages, calls);
      InterceptedShows(env, messages, calls[..n]);
      assert grown[..|messages| + n] == before;
      forall i | 0 <= i < |calls| ensures ShowsWriteAt(env, grown, |messages|, calls, i) {
        if i < n {
          assert ShowsWriteAt(env, before, |messages|, calls[..n], i);
          assert before[..|messages| + i] == grown[..|messages| + i];
        }
      }
    }
  }

  /** What the turn leaves from position a of the conversation on: the nudged answer and the
      nudge; one message for each file written; the reply and one message for each call run. */
  ghost predicate Leaves(env: Env, grown: seq<Message>, a: nat, turn: Turn) {
    match turn
    case Nudged(answer, hint) =>
      a + 2 <= |grown| && grown[a] == AssistantMessage(answer, []) && grown[a + 1] == UserMessage(env.nudgeText(hint))
    case AutoWrote(calls) =>
      forall i {:trigger ShowsWriteAt(env, grown, a, calls, i)} | 0 <= i < |calls| ::
        ShowsWriteAt(env, grown, a, calls, i)
    case Called(content, calls, n) =>
      && a < |grown| && grown[a] == AssistantMessage(content, calls) && n <= |calls|
      && ShowAll(env, grown, a + 1, calls, n)
  }

  /** How many messages that are. */
  function Adds(turn: Turn): nat {
    match turn case Nudged(_, _) => 2 case AutoWrote(calls) => |calls| case Called(_, _, n) => 1 + n
  }

  lemma {:induction false} TurnLeaves(env: Env, messages: seq<Message>, turn: Turn)
    requires turn.Called? ==> turn.executed <= |turn.calls|
    ensures var grown := AfterTurn(env, messages, turn);
            messages <= grown && |grown| == |messages| + Adds(turn) && Leaves(env, grown, |messages|, turn)
  {
    match turn {
      case Nudged(_, _) =>
      case AutoWrote(calls) => InterceptedShows(env, messages, calls);
      case Called(content, calls, n) =>
        var asked, run := messages + [AssistantMessage(content, calls)], calls[..n];
        AnsweredShows(env, asked, run);
        var grown := Answered(env, asked, run);
        ShowOn(env, grown, grown, |asked|, run, calls, n);
        assert grown[|messages|] == asked[|messages|];
    }
  }

  lemma {:induction false} LeavesStays(env: Env, grown: seq<Message>, more: seq<Message>, a: nat, turn: Turn)
    requires grown <= more && Leaves(env, grown, a, turn)
    ensures Leaves(env, more, a, turn)
  {
    match turn {
      case Nudged(_, _) =>
      case AutoWrote(calls) =>
        forall i | 0 <= i < |calls| ensures ShowsWriteAt(env, more, a, calls, i) {
          assert ShowsWriteAt(env, grown, a, calls, i);
          assert more[..a + i] == grown[..a + i];
        }
      case Called(content, calls, n) =>
        ShowOn(env, grown, more, a + 1, calls, calls, n);
    }
  }

  /** Every run: each turn stands in the final conversation right behind those before it, with
      every call that was run answered by what its tool gave on the conversation up to there. */
  lemma {:induction false} EveryTurnLeaves(env: Env, task: Task, limits: Limits, messages: seq<Message>,
                                           turns: seq<Turn>, k: nat)
    requires Follows(env, task, limits, messages, turns) && k < |turns|
    ensures var grown, a := AfterTurns(env, messages, turns), |AfterTurns(env, messages, turns[..k])|;
            Leaves(env, grown, a, turns[k]) && |AfterTurns(env, messages, turns[..k + 1])| == a + Adds(turns[k])
  {
    assert Fits(env, task, limits, messages, turns, k);
    NextMayFollow(env, task, limits, messages, turns[..k], turns[k]);
    TakeTurn(env, messages, turns, k);
    TurnLeaves(env, AfterTurns(env, messages, turns[..k]), turns[k]);
    TurnsGrow(env, messages, turns, k + 1, |turns|);
    assert turns[..|turns|] == turns;
    LeavesStays(env, AfterTurns(env, messages, turns[..k + 1]), AfterTurns(env, messages, turns),
      |AfterTurns(env, messages, turns[..k])|, turns[k]);
  }

  /** The messages that the model's replies and the nudge put there themselves. */
  function Spoken(turns: seq<Turn>): nat {
    if turns == [] then 0
    else
      Spoken(turns[..|turns| - 1]) +
      match turns[|turns| - 1] case Nudged(_, _) => 2 case AutoWrote(_) => 0 case Called(_, _, _) => 1
  }

  /** All other messages that a run adds are those of the tools it used. */
  lemma {:induction false} UsesAreMessages(env: Env, task: Task, limits: Limits, messages: seq<Message>,
                                           turns: seq<Turn>)
    requires Follows(env, task, limits, messages, turns)
    ensures |AfterTurns(env, messages, turns)| == |messages| + Spoken(turns) + ToolUses(turns)
    decreases |turns|
  {
    if turns != [] {
      var n := |turns| - 1;
      FrontFollows(env, task, limits, messages, turns);
      UsesAreMessages(env, task, limits, messages, turns[..n]);
      EveryTurnLeaves(env, task, limits, messages, turns, n);
      assert turns[..n + 1] == turns;
      assert Fits(env, task, limits, messages, turns, n);
      NextMayFollow(env, task, limits, messages, turns[..n], turns[n]);
    }
  }

  // ---- Why each turn was taken ----

  predicate NudgedAt(turns: seq<Turn>, k: nat)
    requires k < |turns|
  {
    turns[k].Nudged?
  }

  ghost predicate WasNudged(turns: seq<Turn>) {
    exists k {:trigger NudgedAt(turns, k)} | 0 <= k < |turns| :: NudgedAt(turns, k)
  }

  lemma {:induction false} NudgesMean(turns: seq<Turn>)
    ensures Nudges(turns) > 0 <==> WasNudged(turns)
  {
    if turns != [] {
      var front, n := turns[..|turns| - 1], |turns| - 1;
      NudgesMean(front);
      if WasNudged(front) {
        var k :| 0 <= k < |front| && NudgedAt(front, k);
        assert NudgedAt(turns, k);
      }
      if WasNudged(turns) {
        var k :| 0 <= k < |turns| && NudgedAt(turns, k);
        assert k < n ==> NudgedAt(front, k);
      }
      assert NudgedAt(turns, n) <==> turns[n].Nudged?;
    }
  }

  /** The text is the reply's, without surrounding blanks, or says that there was none. */
  predicate IsFinding(out: string, content: string) {
    out == if TrimSpace(content) == "" then "[step produced no output]" else TrimSpace(content)
  }

  /** The step has a tool hint or is to create files. */
  predicate WantsEvidence(task: Task) {
    TrimSpace(task.hint) != "" || task.createsFiles
  }

  /** The first n of the calls can be run within the budget and without a third equal one in a
      row, and no more of them. */
  ghost predicate RunsJust(limits: Limits, turns: seq<Turn>, calls: seq<ToolCall>, n: nat) {
    && n <= |calls| && (n > 0 ==> ToolUses(turns) + n <= limits.maxToolCalls)
    && (forall i | 0 < i <= n :: !EndsInTriple(Executed(turns) + calls[..i]))
    && (n < |calls| ==>
         ToolUses(turns) + n >= limits.maxToolCalls || EndsInTriple(Executed(turns) + calls[..n + 1]))
  }

  /** After these turns the reply calls for this turn. */
  ghost predicate Explains(env: Env, task: Task, limits: Limits, turns: seq<Turn>, content: string,
                           calls: seq<ToolCall>, turn: Turn) {
    match turn
    case Called(text, asked, n) => calls != [] && text == content && asked == calls && RunsJust(limits, turns, calls, n)
    case AutoWrote(writes) =>
      calls == [] && task.createsFiles && !WasNudged(turns) && writes != [] &&
      exists out :: IsFinding(out, content) && writes == env.intercept(out)
    case Nudged(answer, hint) =>
      && calls == [] && turns == [] && WantsEvidence(task) && IsFinding(answer, content)
      && (task.createsFiles ==> env.intercept(answer) == [])
      && hint == if TrimSpace(task.hint) == "" then "file" else TrimSpace(task.hint)
  }

  lemma {:induction false} StopsJust(limits: Limits, uses: nat, history: seq<ToolCall>, calls: seq<ToolCall>, n: nat)
    requires n == RunLength(limits, uses, history, calls)
    ensures n > 0 ==> uses + n <= limits.maxToolCalls
    ensures forall i | 0 < i <= n :: !EndsInTriple(history + calls[..i])
    ensures n < |calls| ==> uses + n >= limits.maxToolCalls || EndsInTriple(history + calls[..n + 1])
  {
    if n > 0 {
      NoStopBefore(limits, uses, history, calls, 0, n - 1);
    }
    forall i | 0 < i <= n ensures !EndsInTriple(history + calls[..i]) {
      NoStopBefore(limits, uses, history, calls, 0, i - 1);
    }
    RunLengthStops(limits, uses, history, calls, 0);
  }

  /** Every turn of a run is what the reply before it calls for. */
  lemma {:induction false} EveryTurnExplained(env: Env, task: Task, limits: Limits, messages: seq<Message>,
                                              turns: seq<Turn>, k: nat)
    requires Follows(env, task, limits, messages, turns) && k < |turns|
    ensures var reply := env.model(AfterTurns(env, messages, turns[..k]));
            k < limits.maxIterations && reply.Answer? &&
            Explains(env, task, limits, turns[..k], reply.content, reply.calls, turns[k])
  {
    assert Fits(env, task, limits, messages, turns, k);
    var before := turns[..k];
    var reply := env.model(AfterTurns(env, messages, before));
    NudgesMean(before);
    match turns[k] {
      case Called(_, calls, n) => StopsJust(limits, ToolUses(before), Executed(before), calls, n);
      case AutoWrote(writes) => assert IsFinding(Finding(reply.content), reply.content);
      case _ =>
    }
  }

  // ---- Why and with what a run ends ----

  /** The last reply's calls were not all run. */
  predicate BrokeOff(turns: seq<Turn>) {
    turns != [] && turns[|turns| - 1].Called? && turns[|turns| - 1].executed < |turns[|turns| - 1].calls|
  }

  /** The answer is accepted with this text: as it is, or tagged if the run was nudged for
      evidence and no tool was used all the same. */
  ghost predicate AcceptedAs(task: Task, turns: seq<Turn>, content: string, out: string) {
    if WasNudged(turns) && WantsEvidence(task) && ToolUses(turns) == 0 then
      exists finding :: IsFinding(finding, content) && out == NO_EVIDENCE + finding
    else IsFinding(out, content)
  }

  /** How every run ends, and its text: on a reply whose calls were not all run, by the budget or
      by the breaker; else at the iteration cap, with the last message's text; else on a model
      call that broke down; else on an answer without calls. */
  ghost predicate EndsAs(env: Env, task: Task, limits: Limits, grown: seq<Message>, turns: seq<Turn>, out: string,
                         ending: Ending) {
    if BrokeOff(turns) then
      if ToolUses(turns) >= limits.maxToolCalls then ending == BudgetHit && out == "[partial: step hit tool budget]"
      else ending == Repeated && out == "[circuit breaker: step stopped]"
    else if |turns| == limits.maxIterations then
      ending == IterationCap &&
      out == if grown != [] && TrimSpace(grown[|grown| - 1].content) != "" then grown[|grown| - 1].content
             else "[step did not produce a final finding]"
    else
      match env.model(grown)
      case Answer(content, calls) => calls == [] && ending == Accepted && AcceptedAs(task, turns, content, out)
      case _ => ending == Errored && out == ""
  }

  lemma {:induction false} EveryEndExplained(env: Env, task: Task, limits: Limits, messages: seq<Message>,
                                             turns: seq<Turn>, grown: seq<Message>, out: string, ending: Ending)
    requires RunBy(env, task, limits, messages, turns, grown, out, ending)
    ensures EndsAs(env, task, limits, grown, turns, out, ending)
  {
    FollowsKept(env, task, limits, messages, turns);
    NudgesMean(turns);
    if turns != [] {
      assert Fits(env, task, limits, messages, turns, |turns| - 1);
      NextMayFollow(env, task, limits, messages, turns[..|turns| - 1], turns[|turns| - 1]);
    }
    var reply := env.model(grown);
    if reply.Answer? {
      assert IsFinding(Finding(reply.content), reply.content);
    }
  }

  // ---- Which results count as stalled ----

  /** Trimming keeps a head that begins and ends without blanks. */
  lemma {:induction false} HeadStays(s: string, head: string)
    requires head <= s && head != "" && !IsSpace(head[0]) && !IsSpace(head[|head| - 1])
    ensures head <= TrimSpace(s)
  {
    if |s| > |head| && IsSpace(s[|s| - 1]) {
      HeadStays(s[..|s| - 1], head);
      assert TrimLeft(s) == s && TrimLeft(s[..|s| - 1]) == s[..|s| - 1];
    }
  }

  lemma {:induction false} UntoldStalls(out: string)
    requires NO_EVIDENCE <= out
    ensures D.ShowsNoProgress(out)
  {
    var head := "[no tool evidence";
    assert forall i | 0 <= i < |head| :: NO_EVIDENCE[i] == head[i];
    assert forall i | 0 <= i < |head| :: out[i] == head[i];
    assert out[..|head|] == head;
    HeadStays(out, head);
  }

  lemma {:induction false} BudgetNoteShows()
    ensures !D.ShowsNoProgress("[partial: step hit tool budget]")
  {
    var out := "[partial: step hit tool budget]";
    HeadStays(out, "[partial");
    assert TrimSpace(out)[1] == 'p';
  }

  lemma {:induction false} BreakerNoteStalls()
    ensures D.ShowsNoProgress("[circuit breaker: step stopped]")
  {
    HeadStays("[circuit breaker: step stopped]", "[circuit breaker");
  }

  /** The breaker takes a run that the repeated-call breaker ended, or one accepted without the
      evidence it was nudged for, for stalled, and one that used up its tool budget for progress. */
  lemma {:induction false} StalledRuns(env: Env, task: Task, limits: Limits, messages: seq<Message>,
                                       turns: seq<Turn>, grown: seq<Message>, out: string, ending: Ending)
    requires RunBy(env, task, limits, messages, turns, grown, out, ending)
    ensures ending == Repeated ==> D.ShowsNoProgress(out)
    ensures ending == BudgetHit ==> !D.ShowsNoProgress(out)
    ensures ending == Accepted && WasNudged(turns) && WantsEvidence(task) && ToolUses(turns) == 0 ==>
              D.ShowsNoProgress(out)
  {
    EveryEndExplained(env, task, limits, messages, turns, grown, out, ending);
    BreakerNoteStalls();
    BudgetNoteShows();
    if ending == Accepted && WasNudged(turns) && WantsEvidence(task) && ToolUses(turns) == 0 {
      UntoldStalls(out);
    }
  }

  /** And a text that failed verification, but not one that partly passed it. */
  lemma {:induction false} StalledTexts(tagged: string)
    ensures HasPrefix(tagged, V.FAILED_TAG) ==> D.ShowsNoProgress(tagged)
    ensures HasPrefix(tagged, V.PARTIAL_TAG) ==> !D.ShowsNoProgress(tagged)
  {
    if HasPrefix(tagged, V.FAILED_TAG) {
      HeadStays(tagged, V.FAILED_TAG);
    }
    if HasPrefix(tagged, V.PARTIAL_TAG) {
      HeadStays(tagged, V.PARTIAL_TAG);
      assert TrimSpace(tagged)[1] == 'V' && TrimSpace(tagged)[14] == 'P';
    }
  }
}
