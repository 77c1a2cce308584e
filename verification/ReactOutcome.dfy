/** What a ReAct run did, in terms of the replies, the approvals and the tools' results it was
    given (internal/agent/strategy_react.go). */
module ReactOutcome {
  import opened Base
  import opened Messages
  import opened Compaction
  import opened React

  // ---- What a call leaves ----

  /** The message and the log entry of a call: a refused call is answered with the refusal and
      never counts as a success; any other one shows its tool's output or error. */
  ghost predicate Leaves(env: Env, iter: nat, i: nat, call: ToolCall, m: Message, e: LogEntry) {
    && e.tool == call.name && e.args == call.args
    && match env.approve(iter, i)
       case Approved =>
         (match env.act(iter, i)
          case Output(text) => m == ToolMessage(call.id, env.truncate(text)) && e.success
          case ActError(err) => m == ToolMessage(call.id, env.truncate("Error: " + err)) && !e.success)
       case Denied => m == ToolMessage(call.id, env.truncate("Tool execution DENIED by user.")) && !e.success
       case ApprovalFailed(err) =>
         m == ToolMessage(call.id, env.truncate("Tool execution DENIED by user." + (" Error: " + err))) && !e.success
  }

  lemma {:induction false} CallLeaves(env: Env, iter: nat, content: string, calls: seq<ToolCall>, i: nat)
    requires i < |calls|
    ensures var turn := Ran(iter, content, calls);
            && |TurnMessages(env, turn)| == |calls| + 1 && |TurnEntries(env, turn)| == |calls|
            && TurnMessages(env, turn)[0] == AssistantMessage(content, calls)
            && Leaves(env, iter, i, calls[i], TurnMessages(env, turn)[i + 1], TurnEntries(env, turn)[i])
  {
    var turn := Ran(iter, content, calls);
    assert TurnMessages(env, turn)[i + 1] == Results(env, iter, calls)[i];
    assert "Tool execution DENIED by user." + "" == "Tool execution DENIED by user.";
  }

  /** The calls recorded by the turns. */
  function Recorded(turns: seq<Turn>): nat {
    if turns == [] then 0
    else Recorded(turns[..|turns| - 1]) + if turns[|turns| - 1].Ran? then |turns[|turns| - 1].calls| else 0
  }

  lemma {:induction false} EntriesRecorded(env: Env, turns: seq<Turn>)
    ensures |AllEntries(env, turns)| == Recorded(turns)
  {
    if turns != [] {
      EntriesRecorded(env, turns[..|turns| - 1]);
    }
  }

  lemma {:induction false} EntriesExtend(env: Env, turns: seq<Turn>, n: nat)
    requires n <= |turns|
    ensures AllEntries(env, turns[..n]) <= AllEntries(env, turns)
    decreases |turns|
  {
    if n < |turns| {
      var front := turns[..|turns| - 1];
      assert front[..n] == turns[..n];
      EntriesExtend(env, front, n);
    } else {
      assert turns[..n] == turns;
    }
  }

  lemma {:induction false} TakeTurn(env: Env, cfg: Config, opening: seq<Message>, turns: seq<Turn>, k: nat)
    requires k < |turns|
    ensures AllEntries(env, turns[..k + 1]) == AllEntries(env, turns[..k]) + TurnEntries(env, turns[k])
    ensures TurnMessages(env, turns[k]) <= Newest(Conversation(env, cfg, opening, turns[..k + 1]),
                                                  |TurnMessages(env, turns[k])|)
  {
    assert turns[..k + 1] == turns[..k] + [turns[k]];
    AddTurn(env, cfg, opening, turns[..k], turns[k]);
    var conversation, more := Conversation(env, cfg, opening, turns[..k + 1]), TurnMessages(env, turns[k]);
    assert Newest(conversation, |more|) == more;
  }

  /** The last n messages. */
  function Newest(messages: seq<Message>, n: nat): seq<Message> {
    if n <= |messages| then messages[|messages| - n..] else messages
  }

  /** In every run, each call of each reply that ran leaves its message, in its place behind the
      reply, and its log entry at its number; a call that was not approved leaves the refusal. */
  lemma {:induction false} EveryCallLeaves(env: Env, cfg: Config, opening: seq<Message>, turns: seq<Turn>, k: nat,
                                           i: nat)
    requires k < |turns| && turns[k].Ran? && i < |turns[k].calls|
    ensures var Ran(iter, content, calls) := turns[k];
            var told := Newest(Conversation(env, cfg, opening, turns[..k + 1]), |calls| + 1);
            var log := AllEntries(env, turns);
            && |told| == |calls| + 1 && told[0] == AssistantMessage(content, calls)
            && Recorded(turns[..k]) + i < |log|
            && Leaves(env, iter, i, calls[i], told[i + 1], log[Recorded(turns[..k]) + i])
  {
    var Ran(iter, content, calls) := turns[k];
    var before := AllEntries(env, turns[..k]);
    CallLeaves(env, iter, content, calls, i);
    TakeTurn(env, cfg, opening, turns, k);
    EntriesExtend(env, turns, k + 1);
    EntriesRecorded(env, turns[..k]);
    assert AllEntries(env, turns)[|before| + i] == (before + TurnEntries(env, turns[k]))[|before| + i];
  }

  // ---- Refused calls are not run ----

  /** The same surroundings, but for what the tools would do for calls that are not approved. */
  ghost predicate SameButRefused(a: Env, b: Env) {
    && b == a.(act := b.act)
    && forall iter: nat, i: nat {:trigger a.approve(iter, i)} | a.approve(iter, i).Approved? ::
         a.act(iter, i) == b.act(iter, i)
  }

  lemma {:induction false} SameTurn(a: Env, b: Env, turn: Turn)
    requires SameButRefused(a, b)
    ensures TurnMessages(a, turn) == TurnMessages(b, turn) && TurnEntries(a, turn) == TurnEntries(b, turn)
  {
    if turn.Ran? {
      forall i: nat | i < |turn.calls| ensures ExecOf(a, turn.iter, i) == ExecOf(b, turn.iter, i) {
        assert a.approve(turn.iter, i) == b.approve(turn.iter, i);
      }
      assert Results(a, turn.iter, turn.calls) == Results(b, turn.iter, turn.calls);
      assert Entries(a, turn.iter, turn.calls) == Entries(b, turn.iter, turn.calls);
    }
  }

  lemma {:induction false} SameTexts(a: Env, b: Env, cfg: Config, opening: seq<Message>, turns: seq<Turn>)
    requires SameButRefused(a, b)
    ensures Conversation(a, cfg, opening, turns) == Conversation(b, cfg, opening, turns)
    ensures AllEntries(a, turns) == AllEntries(b, turns)
  {
    if turns != [] {
      SameTexts(a, b, cfg, opening, turns[..|turns| - 1]);
      SameTurn(a, b, turns[|turns| - 1]);
    }
  }

  lemma {:induction false} SameNext(a: Env, b: Env, cfg: Config, h: History)
    requires SameButRefused(a, b)
    ensures Next(a, cfg, h) == Next(b, cfg, h)
  {
  }

  /** What a tool would do for a call that is not approved changes nothing about a run: neither
      its turns, nor the conversation, nor the log, nor the answer. */
  lemma {:induction false} RefusedNeverRuns(a: Env, b: Env, cfg: Config, opening: seq<Message>, turns: seq<Turn>)
    requires SameButRefused(a, b) && Complete(a, cfg, turns)
    ensures Complete(b, cfg, turns)
    ensures Conversation(a, cfg, opening, turns) == Conversation(b, cfg, opening, turns)
    ensures AllEntries(a, turns) == AllEntries(b, turns) && AnswerOf(a, cfg, turns) == AnswerOf(b, cfg, turns)
  {
    SameTexts(a, b, cfg, opening, turns);
    SameNext(a, b, cfg, Seen(turns));
    forall k | 0 <= k < |turns| ensures React.Fits(b, cfg, turns, k) {
      assert React.Fits(a, cfg, turns, k);
      SameNext(a, b, cfg, Seen(turns[..k]));
    }
  }

  // ---- Why each turn was taken ----

  /** The replies answered so far; those since the last resumption; the resumptions. */
  function Replies(turns: seq<Turn>): nat {
    if turns == [] then 0 else Replies(turns[..|turns| - 1]) + if turns[|turns| - 1].Resumed? then 0 else 1
  }

  function InRound(turns: seq<Turn>): nat {
    if turns == [] || turns[|turns| - 1].Resumed? then 0 else InRound(turns[..|turns| - 1]) + 1
  }

  function CallsInRound(turns: seq<Turn>): nat {
    if turns == [] || turns[|turns| - 1].Resumed? then 0
    else CallsInRound(turns[..|turns| - 1]) + if turns[|turns| - 1].Ran? then |turns[|turns| - 1].calls| else 0
  }

  function Resumptions(turns: seq<Turn>): nat {
    if turns == [] then 0 else Resumptions(turns[..|turns| - 1]) + if turns[|turns| - 1].Resumed? then 1 else 0
  }

  predicate NudgedAt(turns: seq<Turn>, k: nat, text: string)
    requires k < |turns|
  {
    turns[k] == Nudged(text)
  }

  ghost predicate WasNudged(turns: seq<Turn>, text: string) {
    exists k {:trigger NudgedAt(turns, k, text)} | 0 <= k < |turns| :: NudgedAt(turns, k, text)
  }

  lemma {:induction false} NudgedNext(front: seq<Turn>, turn: Turn, text: string)
    ensures WasNudged(front + [turn], text) <==> WasNudged(front, text) || turn == Nudged(text)
  {
    var all := front + [turn];
    if WasNudged(front, text) {
      var k :| 0 <= k < |front| && NudgedAt(front, k, text);
      assert NudgedAt(all, k, text);
    }
    if WasNudged(all, text) {
      var k :| 0 <= k < |all| && NudgedAt(all, k, text);
      assert k < |front| ==> NudgedAt(front, k, text);
    }
    assert NudgedAt(all, |front|, text) <==> turn == Nudged(text);
  }

  /** What the loop keeps in counters and flags can be read off the turns. */
  lemma {:induction false} SeenMeans(turns: seq<Turn>)
    ensures var h := Seen(turns);
            && h.iters == Replies(turns) && h.inRound == InRound(turns) && h.rounds == Resumptions(turns)
            && h.calls == Recorded(turns) && h.callsInRound == CallsInRound(turns)
            && (h.truncationRetried <==> WasNudged(turns, TRUNCATED_NOTICE))
            && (h.emptyRetried <==> WasNudged(turns, SUMMARY_REQUEST))
  {
    if turns != [] {
      var front, last := turns[..|turns| - 1], turns[|turns| - 1];
      assert turns == front + [last];
      SeenMeans(front);
      NudgedNext(front, last, TRUNCATED_NOTICE);
      NudgedNext(front, last, SUMMARY_REQUEST);
    }
  }

  /** The calls a reply asks for: its own, or for want of those the ones its text holds. */
  function Wanted(env: Env, reply: Reply): seq<ToolCall>
    requires reply.Answer?
  {
    if reply.calls == [] && reply.content != "" then env.extract(reply.content) else reply.calls
  }

  /** A reply without calls that used up nearly all its tokens, before the round's last
      iteration, in a run that was not told so before. */
  ghost predicate CutShort(env: Env, cfg: Config, turns: seq<Turn>, reply: Reply)
    requires reply.Answer?
  {
    && Wanted(env, reply) == [] && reply.completionTokens >= cfg.maxTokens - 200
    && !WasNudged(turns, TRUNCATED_NOTICE) && InRound(turns) + 1 < cfg.maxIterations
  }

  /** After these turns the reply calls for this turn. */
  ghost predicate Explains(env: Env, cfg: Config, turns: seq<Turn>, reply: Reply, turn: Turn)
    requires reply.Answer?
  {
    match turn
    case Ran(iter, content, calls) =>
      && calls == Wanted(env, reply) != [] && Recorded(turns) < 15 && iter == Replies(turns) + 1
      && content == if reply.calls == [] then "" else reply.content
    case Nudged(text) =>
      || (Wanted(env, reply) != [] && Recorded(turns) >= 15 && text == CAP_NOTICE)
      || (CutShort(env, cfg, turns, reply) && text == TRUNCATED_NOTICE)
      || (Wanted(env, reply) == [] && reply.content == "" && Recorded(turns) > 0 && text == SUMMARY_REQUEST &&
          !CutShort(env, cfg, turns, reply) && !WasNudged(turns, SUMMARY_REQUEST))
    case Resumed(_) => false
  }

  /** The round is over, it ran calls, and a further round is allowed. */
  predicate GoesOn(env: Env, cfg: Config, turns: seq<Turn>) {
    && InRound(turns) >= cfg.maxIterations && CallsInRound(turns) > 0
    && Resumptions(turns) < (if cfg.maxContinuations <= 0 then 3 else cfg.maxContinuations)
  }

  /** Every turn of a run is what the reply before it, or the end of its round, calls for. */
  lemma {:induction false} EveryTurnExplained(env: Env, cfg: Config, turns: seq<Turn>, k: nat)
    requires Follows(env, cfg, turns) && k < |turns|
    ensures var before, reply := turns[..k], env.model(Replies(turns[..k]) + 1);
            if turns[k].Resumed? then GoesOn(env, cfg, before) && turns[k].text == env.keepGoing(Recorded(before))
            else InRound(before) < cfg.maxIterations && reply.Answer? && Explains(env, cfg, before, reply, turns[k])
  {
    assert React.Fits(env, cfg, turns, k);
    SeenMeans(turns[..k]);
  }

  /** A run ends exactly if its rounds are over, the model call breaks down, or the reply wants
      no calls and is neither cut short nor an empty one after calls that a summary has not been
      asked for yet. */
  lemma {:induction false} EndsIff(env: Env, cfg: Config, turns: seq<Turn>)
    requires Follows(env, cfg, turns)
    ensures var reply := env.model(Replies(turns) + 1);
            Complete(env, cfg, turns) <==>
            if InRound(turns) >= cfg.maxIterations then !GoesOn(env, cfg, turns)
            else reply.CallFailed? ||
                 (Wanted(env, reply) == [] && !CutShort(env, cfg, turns, reply) &&
                  !(reply.content == "" && Recorded(turns) > 0 && !WasNudged(turns, SUMMARY_REQUEST)))
  {
    SeenMeans(turns);
  }

  /** The answer of a complete run: the last reply's text; for want of one the default summary,
      if calls were recorded; nothing if the model call broke down. */
  lemma {:induction false} AnswerMeans(env: Env, cfg: Config, turns: seq<Turn>)
    requires Complete(env, cfg, turns)
    ensures var reply, answer := env.model(Replies(turns) + 1), AnswerOf(env, cfg, turns);
            var over := InRound(turns) >= cfg.maxIterations;
            var n := Replies(turns) + if over then 0 else 1;
            && ModelCalls(env, cfg, turns) == n
            && (!over && reply.CallFailed? ==> answer == "")
            && (!over && reply.Answer? && reply.content != "" ==> answer == reply.content)
            && (!over && reply.Answer? && reply.content == "" ==>
                answer == if Recorded(turns) > 0 then DEFAULT_SUMMARY else "")
            && (over ==> answer == if Recorded(turns) > 0 then env.summarized(Recorded(turns), n) else "")
  {
    SeenMeans(turns);
  }

  // ---- What the model is asked with ----

  lemma {:induction false} CompactedSize(summary: seq<Message> -> string, messages: seq<Message>, maxTokens: int)
    ensures Compaction.Fits(SmartCompacted(summary, messages, maxTokens), maxTokens) ||
            |Others(SmartCompacted(summary, messages, maxTokens))| <= 8
  {
    if !Compaction.Fits(messages, maxTokens) && |Others(messages)| > RECENT {
      SmartCompactedParts(summary, messages, maxTokens);
      SmartPartition(Others(messages));
    }
  }

  /** Every request is within a context budget that is not negative, and then the conversation as it was, or has at
      most eight messages besides the system prompt. */
  lemma {:induction false} RequestIsSmall(env: Env, cfg: Config, messages: seq<Message>)
    ensures var request := Upkept(env, cfg, messages);
            && (Chars(messages) / 4 <= cfg.maxContextTokens ==> request == messages)
            && (cfg.maxContextTokens >= 0 ==>
                Chars(request) / 4 <= cfg.maxContextTokens || |Others(request)| <= 8)
  {
    CompactedSize(env.summary, messages, Half(cfg.maxContextTokens));
  }
}
