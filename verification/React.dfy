/** The free ReAct loop with auto-continuation (internal/agent/strategy_react.go,
    executeReact), on the conversation of internal/agent/context.go. */
module React {
  import opened Base
  import opened Messages
  import opened Compaction

  datatype Reply = CallFailed | Answer(content: string, calls: seq<ToolCall>, completionTokens: int)

  datatype ActResult = Output(text: string) | ActError(err: string)

  /** What the run cannot see into, by iteration and call index, and the texts it only passes on. */
  datatype Env = Env(
    model: nat -> Reply,
    extract: string -> seq<ToolCall>,        // tool calls written as fenced JSON
    approve: (nat, nat) -> Approval,
    act: (nat, nat) -> ActResult,
    truncate: string -> string,
    summary: seq<Message> -> string,
    keepGoing: nat -> string,                // the nudges, by tool calls recorded so far
    summarized: (nat, nat) -> string,        // the default summary, never empty
    sanitize: string -> string)

  datatype Approval = Approved | Denied | ApprovalFailed(err: string)

  datatype Config = Config(maxIterations: int, maxContinuations: int, maxContextTokens: int, maxTokens: int)

  const HARD_CAP := 15

  function MaxRounds(cfg: Config): nat {
    if cfg.maxContinuations <= 0 then 3 else cfg.maxContinuations
  }

  /** One executed reply, a nudge in answer to a reply, or the nudge that opens a further round. */
  datatype Turn = Ran(iter: nat, content: string, calls: seq<ToolCall>) | Nudged(text: string) | Resumed(text: string)

  datatype LogEntry = LogEntry(tool: string, args: string, success: bool)

  /** What a call leaves behind: its text, and whether it ran without an error. */
  datatype ExecResult = ExecResult(result: string, ok: bool)

  function DenialText(approval: Approval): string {
    "Tool execution DENIED by user." + if approval.ApprovalFailed? then " Error: " + approval.err else ""
  }

  function ActOf(act: ActResult): ExecResult {
    match act case Output(text) => ExecResult(text, true) case ActError(err) => ExecResult("Error: " + err, false)
  }

  function ExecOf(env: Env, iter: nat, i: nat): ExecResult {
    var approval := env.approve(iter, i);
    if approval.Approved? then ActOf(env.act(iter, i)) else ExecResult(DenialText(approval), false)
  }

  /** One tool message per call, in request order, each under its call's ID. */
  function Results(env: Env, iter: nat, calls: seq<ToolCall>): seq<Message> {
    seq(|calls|, i requires 0 <= i < |calls| => ToolMessage(calls[i].id, env.truncate(ExecOf(env, iter, i).result)))
  }

  function Entries(env: Env, iter: nat, calls: seq<ToolCall>): seq<LogEntry> {
    seq(|calls|, i requires 0 <= i < |calls| => LogEntry(calls[i].name, calls[i].args, ExecOf(env, iter, i).ok))
  }

  function TurnMessages(env: Env, turn: Turn): seq<Message> {
    match turn
    case Ran(iter, content, calls) => [AssistantMessage(content, calls)] + Results(env, iter, calls)
    case Nudged(text) => [UserMessage(text)]
    case Resumed(text) => [UserMessage(text)]
  }

  /** Halves toward zero. */
  function Half(n: int): int {
    if n >= 0 then n / 2 else -(-n / 2)
  }

  /** A conversation that has outgrown the budget is compacted to half of it. */
  function Upkept(env: Env, cfg: Config, messages: seq<Message>): seq<Message> {
    if Chars(messages) / 4 > cfg.maxContextTokens then
      SmartCompacted(env.summary, messages, Half(cfg.maxContextTokens))
    else messages
  }

  /** The conversation after the turns; every model call is preceded by the upkeep. */
  function Conversation(env: Env, cfg: Config, opening: seq<Message>, turns: seq<Turn>): seq<Message> {
    if turns == [] then opening
    else
      var before, last := Conversation(env, cfg, opening, turns[..|turns| - 1]), turns[|turns| - 1];
      (if last.Resumed? then before else Upkept(env, cfg, before)) + TurnMessages(env, last)
  }

  function TurnEntries(env: Env, turn: Turn): seq<LogEntry> {
    if turn.Ran? then Entries(env, turn.iter, turn.calls) else []
  }

  function AllEntries(env: Env, turns: seq<Turn>): seq<LogEntry> {
    if turns == [] then [] else AllEntries(env, turns[..|turns| - 1]) + TurnEntries(env, turns[|turns| - 1])
  }

  // ---- What a run is ----

  const CAP_NOTICE := "You have used 15+ tool calls."
  const TRUNCATED_NOTICE := "Your previous response was cut off due to length."
  const SUMMARY_REQUEST := "You completed the task using tools."
  const DEFAULT_SUMMARY := "Done. I completed the task successfully."

  /** What a list of turns amounts to: the replies answered and calls recorded, in all and
      since the last resumption, and which one-time nudges were given. */
  datatype History = History(iters: nat, inRound: nat, rounds: nat, calls: nat, callsInRound: nat,
                             truncationRetried: bool, emptyRetried: bool)

  function See(h: History, turn: Turn): History {
    match turn
    case Ran(_, _, calls) =>
      h.(iters := h.iters + 1, inRound := h.inRound + 1, calls := h.calls + |calls|, callsInRound :=
        h.callsInRound + |calls|)
    case Nudged(text) =>
      h.(iters := h.iters + 1, inRound := h.inRound + 1,
         truncationRetried := h.truncationRetried || text == TRUNCATED_NOTICE, emptyRetried :=
           h.emptyRetried || text == SUMMARY_REQUEST)
    case Resumed(_) =>
      h.(inRound := 0, rounds := h.rounds + 1, callsInRound := 0)
  }

  function Seen(turns: seq<Turn>): History {
    if turns == [] then History(0, 0, 0, 0, 0, false, false) else See(Seen(turns[..|turns| - 1]), turns[|turns| - 1])
  }

  function Iterations(cfg: Config): nat {
    if cfg.maxIterations < 0 then 0 else cfg.maxIterations
  }

  function Extracted(env: Env, content: string, calls: seq<ToolCall>): (string, seq<ToolCall>) {
    if calls == [] && content != "" && env.extract(content) != [] then ("", env.extract(content)) else (content, calls)
  }

  /** How a run comes to its end. */
  datatype End = Exhausted | Answered(content: string) | Failed

  datatype Continuation = Go(turn: Turn) | Stop(end: End)

  /** The one continuation that a history allows. */
  function Next(env: Env, cfg: Config, h: History): Continuation {
    if h.inRound >= Iterations(cfg) then
      if h.callsInRound > 0 && h.rounds < MaxRounds(cfg) then Go(Resumed(env.keepGoing(h.calls))) else Stop(Exhausted)
    else
      match env.model(h.iters + 1)
      case CallFailed => Stop(Failed)
      case Answer(text, requested, completionTokens) =>
        var (content, calls) := Extracted(env, text, requested);
        if calls != [] then Go(if h.calls < HARD_CAP then Ran(h.iters + 1, content, calls) else Nudged(CAP_NOTICE))
        else if completionTokens >= cfg.maxTokens - 200 && !h.truncationRetried && h.inRound + 1 < Iterations(cfg) then
          Go(Nudged(TRUNCATED_NOTICE))
        else if content == "" && h.calls > 0 then
          if h.emptyRetried then Stop(Answered(DEFAULT_SUMMARY)) else Go(Nudged(SUMMARY_REQUEST))
        else Stop(Answered(content))
  }

  ghost predicate Fits(env: Env, cfg: Config, turns: seq<Turn>, k: nat)
    requires k < |turns|
  {
    Next(env, cfg, Seen(turns[..k])) == Go(turns[k])
  }

  ghost predicate Follows(env: Env, cfg: Config, turns: seq<Turn>) {
    forall k {:trigger Fits(env, cfg, turns, k)} | 0 <= k < |turns| :: Fits(env, cfg, turns, k)
  }

  ghost predicate Complete(env: Env, cfg: Config, turns: seq<Turn>) {
    Follows(env, cfg, turns) && Next(env, cfg, Seen(turns)).Stop?
  }

  lemma {:induction false} FollowsPrefix(env: Env, cfg: Config, turns: seq<Turn>, n: nat)
    requires Follows(env, cfg, turns) && n <= |turns|
    ensures Follows(env, cfg, turns[..n])
  {
    forall k | 0 <= k < n ensures Fits(env, cfg, turns[..n], k) {
      assert Fits(env, cfg, turns, k) && turns[..n][..k] == turns[..k];
    }
  }

  lemma {:induction false} SharePrefix(env: Env, cfg: Config, a: seq<Turn>, b: seq<Turn>, k: nat)
    requires Follows(env, cfg, a) && Follows(env, cfg, b) && k <= |a| <= |b|
    ensures a[..k] == b[..k]
  {
    if k > 0 {
      SharePrefix(env, cfg, a, b, k - 1);
      assert Fits(env, cfg, a, k - 1) && Fits(env, cfg, b, k - 1);
      assert a[..k] == a[..k - 1] + [a[k - 1]] && b[..k] == b[..k - 1] + [b[k - 1]];
    }
  }

  /** The surroundings determine the run. */
  lemma {:induction false} OneRun(env: Env, cfg: Config, a: seq<Turn>, b: seq<Turn>)
    requires Complete(env, cfg, a) && Complete(env, cfg, b)
    ensures a == b
    decreases |a| > |b|
  {
    if |a| > |b| {
      OneRun(env, cfg, b, a);
    } else {
      SharePrefix(env, cfg, a, b, |a|);
      assert a[..|a|] == a;
      assert |a| < |b| ==> Fits(env, cfg, b, |a|);
      assert b[..|a|] == b;
    }
  }

  /** The iterations that so many rounds have. */
  function Allowed(perRound: nat, rounds: nat): nat {
    if rounds == 0 then 0 else Allowed(perRound, rounds - 1) + perRound
  }

  lemma {:induction false} AllowedIsProduct(perRound: nat, rounds: nat)
    ensures Allowed(perRound, rounds) == perRound * rounds
  {
    if rounds > 0 {
      AllowedIsProduct(perRound, rounds - 1);
    }
  }

  /** Every resumption was earned by a call, and calls are only made below the cap. */
  ghost predicate HistoryInv(cfg: Config, h: History) {
    && h.inRound <= Iterations(cfg)
    && h.iters == Allowed(Iterations(cfg), h.rounds) + h.inRound
    && h.rounds <= h.calls - h.callsInRound
    && (h.callsInRound > 0 ==> h.calls - h.callsInRound < HARD_CAP)
    && h.rounds <= MaxRounds(cfg) && h.rounds <= HARD_CAP
  }

  lemma {:induction false} FollowsInv(env: Env, cfg: Config, turns: seq<Turn>)
    requires Follows(env, cfg, turns)
    ensures HistoryInv(cfg, Seen(turns))
  {
    if turns != [] {
      FollowsPrefix(env, cfg, turns, |turns| - 1);
      FollowsInv(env, cfg, turns[..|turns| - 1]);
      assert Fits(env, cfg, turns, |turns| - 1);
    }
  }

  function ModelCalls(env: Env, cfg: Config, turns: seq<Turn>): nat {
    Seen(turns).iters + if Next(env, cfg, Seen(turns)) == Stop(Exhausted) then 0 else 1
  }

  /** Model calls of a complete run: at most maxIterations for each round, and there are at
      most maxRounds + 1 rounds, and at most HARD_CAP + 1 of them however high maxRounds is. */
  lemma {:induction false} RunIsBounded(env: Env, cfg: Config, turns: seq<Turn>)
    requires Complete(env, cfg, turns)
    ensures var rounds := Seen(turns).rounds + 1;
            && ModelCalls(env, cfg, turns) <= Iterations(cfg) * rounds
            && rounds <= MaxRounds(cfg) + 1 && rounds <= HARD_CAP + 1
  {
    var h := Seen(turns);
    FollowsInv(env, cfg, turns);
    AllowedIsProduct(Iterations(cfg), h.rounds + 1);
    assert Allowed(Iterations(cfg), h.rounds + 1) == Allowed(Iterations(cfg), h.rounds) + Iterations(cfg);
  }

  /** No tool runs once HARD_CAP calls are recorded. */
  lemma {:induction false} NoToolPastCap(env: Env, cfg: Config, turns: seq<Turn>, k: nat)
    requires Follows(env, cfg, turns) && k < |turns| && turns[k].Ran?
    ensures Seen(turns[..k]).calls < HARD_CAP && turns[k].calls != []
  {
    assert Fits(env, cfg, turns, k);
  }

  /** Turn j ran calls, and no round was resumed from there up to turn k. */
  ghost predicate RanSince(turns: seq<Turn>, j: nat, k: nat)
    requires j < k <= |turns|
  {
    turns[j].Ran? && forall i | j <= i < k :: !turns[i].Resumed?
  }

  /** A further round starts only after a full one that itself ran and recorded calls. */
  lemma {:induction false} ResumedAfterCalls(env: Env, cfg: Config, turns: seq<Turn>, k: nat)
    requires Follows(env, cfg, turns) && k < |turns| && turns[k].Resumed?
    ensures var h := Seen(turns[..k]); h.inRound == Iterations(cfg) && h.callsInRound > 0
    ensures exists j {:trigger RanSince(turns, j, k)} | 0 <= j < k :: RanSince(turns, j, k) && turns[j].calls != []
  {
    assert Fits(env, cfg, turns, k);
    FollowsPrefix(env, cfg, turns, k);
    FollowsInv(env, cfg, turns[..k]);
    var j := CallsHaveTurn(turns, k);
    NoToolPastCap(env, cfg, turns, j);
  }

  lemma {:induction false} CallsHaveTurn(turns: seq<Turn>, k: nat) returns (j: nat)
    requires k <= |turns| && Seen(turns[..k]).callsInRound > 0
    ensures j < k && RanSince(turns, j, k)
  {
    assert k > 0 && turns[..k][..k - 1] == turns[..k - 1];
    if turns[k - 1].Ran? {
      j := k - 1;
    } else {
      j := CallsHaveTurn(turns, k - 1);
    }
  }

  /** All calls recorded: fewer than HARD_CAP, and the calls of the last reply that ran. */
  lemma {:induction false} CallsAreBounded(env: Env, cfg: Config, turns: seq<Turn>, k: nat)
      returns (last: seq<ToolCall>)
    requires Follows(env, cfg, turns) && k <= |turns|
    ensures Seen(turns[..k]).calls < HARD_CAP + |last|
    ensures last == [] || exists j | 0 <= j < k :: turns[j].Ran? && turns[j].calls == last && forall i | j < i < k ::
            !turns[i].Ran?
  {
    if k == 0 {
      last := [];
    } else {
      assert turns[..k][..k - 1] == turns[..k - 1];
      if turns[k - 1].Ran? {
        NoToolPastCap(env, cfg, turns, k - 1);
        last := turns[k - 1].calls;
      } else {
        last := CallsAreBounded(env, cfg, turns, k - 1);
      }
    }
  }

  lemma {:induction false} AddTurn(env: Env, cfg: Config, opening: seq<Message>, turns: seq<Turn>, turn: Turn)
    ensures var before := Conversation(env, cfg, opening, turns);
            Conversation(env, cfg, opening, turns + [turn]) ==
            (if turn.Resumed? then before else Upkept(env, cfg, before)) + TurnMessages(env, turn)
    ensures AllEntries(env, turns + [turn]) == AllEntries(env, turns) + TurnEntries(env, turn)
    ensures Seen(turns + [turn]) == See(Seen(turns), turn)
  {
    assert (turns + [turn])[..|turns|] == turns;
  }

  lemma {:induction false} AddFollows(env: Env, cfg: Config, turns: seq<Turn>, turn: Turn)
    requires Follows(env, cfg, turns) && Next(env, cfg, Seen(turns)) == Go(turn)
    ensures Follows(env, cfg, turns + [turn])
  {
    var all := turns + [turn];
    forall k | 0 <= k < |all| ensures Fits(env, cfg, all, k) {
      assert all[..k] == turns[..k];
      if k < |turns| {
        assert Fits(env, cfg, turns, k);
      } else {
        assert turns[..k] == turns;
      }
    }
  }

  /** One log entry for each recorded call. */
  lemma {:induction false} LogMatchesCalls(env: Env, turns: seq<Turn>)
    ensures |AllEntries(env, turns)| == Seen(turns).calls
  {
    if turns != [] {
      LogMatchesCalls(env, turns[..|turns| - 1]);
    }
  }

  // ---- One batch of tool calls ----

  /** Approvals one after the other, then the approved tools in parallel: whichever finishes
      next writes its own slot. */
  method Execute(env: Env, iter: nat, calls: seq<ToolCall>) returns (results: array<ExecResult>)
    ensures fresh(results) && results.Length == |calls|
    ensures forall i | 0 <= i < |calls| :: results[i] == ExecOf(env, iter, i)
  {
    results := new ExecResult[|calls|](_ => ExecResult("", false));
    var running: set<nat> := {};
    for i := 0 to |calls|
      invariant forall k | 0 <= k < i :: k in running || results[k] == ExecOf(env, iter, k)
      invariant forall k | k in running :: k < i && env.approve(iter, k).Approved?
    {
      var approval := env.approve(iter, i);
      if approval.Approved? {
        running := running + {i};
      } else {
        results[i] := ExecResult(DenialText(approval), false);
      }
    }
    while running != {}
      invariant forall k | 0 <= k < |calls| :: k in running || results[k] == ExecOf(env, iter, k)
      invariant forall k | k in running :: k < |calls| && env.approve(iter, k).Approved?
      decreases running
    {
      var i :| i in running;
      results[i] := ActOf(env.act(iter, i));
      running := running - {i};
    }
  }

  /** Runs the calls of one reply and records the results in request order. */
  method RunCalls(env: Env, iter: nat, conversation: Context, log: seq<LogEntry>, total: nat, content: string,
                  calls: seq<ToolCall>)
    returns (log': seq<LogEntry>, total': nat)
    modifies conversation
    ensures conversation.messages == old(conversation.messages) + TurnMessages(env, Ran(iter, content, calls))
    ensures log' == log + Entries(env, iter, calls) && total' == total + |calls|
  {
    var assistant := AssistantMessage(content, calls);
    log', total' := log, total;
    conversation.Add(assistant);
    var results := Execute(env, iter, calls);
    for i := 0 to |calls|
      invariant conversation.messages == old(conversation.messages) + ([assistant] + Results(env, iter, calls)[..i])
      invariant log' == log + Entries(env, iter, calls)[..i] && total' == total + i
      invariant forall k | 0 <= k < |calls| :: results[k] == ExecOf(env, iter, k)
    {
      log' := log' + [LogEntry(calls[i].name, calls[i].args, results[i].ok)];
      conversation.Add(ToolMessage(calls[i].id, env.truncate(results[i].result)));
      total' := total' + 1;
      assert Results(env, iter, calls)[..i + 1] == Results(env, iter, calls)[..i] + [Results(env, iter, calls)[i]];
      assert Entries(env, iter, calls)[..i + 1] == Entries(env, iter, calls)[..i] + [Entries(env, iter, calls)[i]];
    }
    assert Results(env, iter, calls)[..|calls|] == Results(env, iter, calls);
    assert Entries(env, iter, calls)[..|calls|] == Entries(env, iter, calls);
  }

  // ---- The run ----

  datatype Failure = ModelFailed | MaxIterations

  datatype TaskResult = TaskResult(content: string, log: seq<LogEntry>, toolCallsMade: nat, iterations: nat,
                                   error: Option<Failure>)

  /** The run's counters, log and one-time flags. */
  datatype Run = Run(totalToolCalls: nat, totalIters: nat, log: seq<LogEntry>, emptyRetried: bool,
                     truncationRetried: bool)

  /** The counters and flags agree with the turns of a proper run. */
  ghost predicate Tracks(run: Run, h: History) {
    run.totalToolCalls == h.calls && run.totalIters == h.iters && run.emptyRetried == h.emptyRetried &&
      run.truncationRetried == h.truncationRetried
  }

  /** What the loop makes of a reply, and the flags it leaves. */
  method Respond(env: Env, cfg: Config, run: Run, iteration: int, ghost h: History)
      returns (next: Continuation, run': Run)
    requires run.totalIters == h.iters + 1 && Tracks(run.(totalIters := h.iters), h)
    requires h.inRound == iteration - 1 < cfg.maxIterations
    ensures next == Next(env, cfg, h)
    ensures next.Go? ==> !next.turn.Resumed? && (next.turn.Ran? ==> next.turn.iter == run.totalIters)
    ensures run'.totalToolCalls == run.totalToolCalls && run'.totalIters == run.totalIters && run'.log == run.log
    ensures next.Go? ==>
              && run'.emptyRetried == See(h, next.turn).emptyRetried
              && run'.truncationRetried == See(h, next.turn).truncationRetried
    ensures next.Stop? ==> run' == run
  {
    run' := run;
    var reply := env.model(run.totalIters);
    if reply.CallFailed? {
      return Stop(Failed), run;
    }
    var (content, calls) := Extracted(env, reply.content, reply.calls);
    if calls != [] {
      return Go(if run.totalToolCalls >= HARD_CAP then Nudged(CAP_NOTICE) else Ran(run.totalIters, content, calls)),
        run;
    }
    if reply.completionTokens >= cfg.maxTokens - 200 && !run.truncationRetried && iteration < cfg.maxIterations {
      return Go(Nudged(TRUNCATED_NOTICE)), run.(truncationRetried := true);
    }
    if content == "" && run.totalToolCalls > 0 {
      if !run.emptyRetried {
        return Go(Nudged(SUMMARY_REQUEST)), run.(emptyRetried := true);
      }
      return Stop(Answered(DEFAULT_SUMMARY)), run;
    }
    return Stop(Answered(content)), run;
  }

  /** Puts a turn into the conversation: a nudge, or the calls of a reply and their results. */
  method Apply(env: Env, context: Context, run: Run, turn: Turn) returns (run': Run)
    modifies context
    ensures context.messages == old(context.messages) + TurnMessages(env, turn)
    ensures run' == run.(log := run.log + TurnEntries(env, turn),
                         totalToolCalls := run.totalToolCalls + if turn.Ran? then |turn.calls| else 0)
  {
    match turn {
      case Ran(iter, content, calls) =>
        var log, total := RunCalls(env, iter, context, run.log, run.totalToolCalls, content, calls);
        run' := run.(log := log, totalToolCalls := total);
      case Nudged(text) =>
        context.Add(UserMessage(text));
        run' := run;
      case Resumed(text) =>
        context.Add(UserMessage(text));
        run' := run;
    }
  }

  method CompactIfLarge(env: Env, cfg: Config, context: Context)
    modifies context
    ensures context.messages == Upkept(env, cfg, old(context.messages))
  {
    var tokens := context.TokenCount();
    if tokens > cfg.maxContextTokens {
      context.SmartCompact(env.summary, Half(cfg.maxContextTokens));
    }
  }

  /** The counters and the log belong to the turns of a run in progress. */
  ghost predicate InStep(env: Env, cfg: Config, run: Run, turns: seq<Turn>, h: History) {
    Follows(env, cfg, turns) && h == Seen(turns) && Tracks(run, h) && run.log == AllEntries(env, turns)
  }

  lemma {:induction false} NextInStep(env: Env, cfg: Config, run: Run, turns: seq<Turn>, h: History, turn: Turn,
                                      run': Run)
    requires InStep(env, cfg, run, turns, h) && Next(env, cfg, h) == Go(turn)
    requires Tracks(run', See(h, turn)) && run'.log == run.log + TurnEntries(env, turn)
    ensures InStep(env, cfg, run', turns + [turn], See(h, turn))
  {
    AddTurn(env, cfg, [], turns, turn);
    AddFollows(env, cfg, turns, turn);
  }

  /** One model call and what follows from it. */
  method Iterate(env: Env, cfg: Config, context: Context, run: Run, iteration: int, ghost turns: seq<Turn>,
                 ghost h: History)
    returns (next: Continuation, run': Run)
    requires InStep(env, cfg, run, turns, h) && h.inRound == iteration - 1 < cfg.maxIterations
    modifies context
    ensures next == Next(env, cfg, h) && (next.Go? ==> !next.turn.Resumed?)
    ensures context.messages == Upkept(env, cfg, old(context.messages)) + if next.Go? then TurnMessages(env, next.turn)
            else []
    ensures next.Go? ==> InStep(env, cfg, run', turns + [next.turn], See(h, next.turn))
    ensures next.Stop? ==> run' == run.(totalIters := run.totalIters + 1)
  {
    CompactIfLarge(env, cfg, context);
    next, run' := Respond(env, cfg, run.(totalIters := run.totalIters + 1), iteration, h);
    if next.Go? {
      run' := Apply(env, context, run', next.turn);
      NextInStep(env, cfg, run, turns, h, next.turn, run');
    }
  }

  /** The conversation is that of the turns; stopped says that a further reply has ended the run. */
  ghost predicate Holds(env: Env, cfg: Config, opening: seq<Message>, messages: seq<Message>, turns: seq<Turn>,
                        stopped: bool) {
    messages == if stopped then Upkept(env, cfg, Conversation(env, cfg, opening, turns))
      else Conversation(env, cfg, opening, turns)
  }

  lemma {:induction false} HoldsNext(env: Env, cfg: Config, opening: seq<Message>, messages: seq<Message>,
                                     turns: seq<Turn>, turn: Turn, messages': seq<Message>)
    requires Holds(env, cfg, opening, messages, turns, false)
    requires messages' == (if turn.Resumed? then messages else Upkept(env, cfg, messages)) + TurnMessages(env, turn)
    ensures Holds(env, cfg, opening, messages', turns + [turn], false)
  {
    AddTurn(env, cfg, opening, turns, turn);
  }

  /** The iterations of one round. */
  method Round(env: Env, cfg: Config, ghost opening: seq<Message>, context: Context, run: Run, ghost turns: seq<Turn>,
               ghost h: History)
    returns (run': Run, end: End, ghost turns': seq<Turn>, ghost h': History)
    requires InStep(env, cfg, run, turns, h) && h.inRound == h.callsInRound == 0
    requires Holds(env, cfg, opening, context.messages, turns, false)
    modifies context
    ensures Holds(env, cfg, opening, context.messages, turns', !end.Exhausted?)
    ensures InStep(env, cfg, if end.Exhausted? then run' else run'.(totalIters := h'.iters), turns', h')
    ensures end.Exhausted? ==> h'.inRound == Iterations(cfg)
    ensures !end.Exhausted? ==> Next(env, cfg, h') == Stop(end) && run'.totalIters == h'.iters + 1
    ensures h'.rounds == h.rounds && h'.callsInRound == run'.totalToolCalls - run.totalToolCalls
  {
    turns', run', h' := turns, run, h;
    end := Exhausted;
    var iteration := 1;
    while iteration <= cfg.maxIterations
      invariant 1 <= iteration <= Iterations(cfg) + 1
      invariant InStep(env, cfg, run', turns', h') && Holds(env, cfg, opening, context.messages, turns', false)
      invariant h'.inRound == iteration - 1 && h'.rounds == h.rounds &&
                h'.callsInRound == run'.totalToolCalls - run.totalToolCalls
      decreases cfg.maxIterations - iteration
    {
      ghost var before := context.messages;
      var next;
      next, run' := Iterate(env, cfg, context, run', iteration, turns', h');
      if next.Stop? {
        end := next.end;
        break;
      }
      HoldsNext(env, cfg, opening, before, turns', next.turn, context.messages);
      turns', h' := turns' + [next.turn], See(h', next.turn);
      iteration := iteration + 1;
    }
  }

  /** The answer of a complete run, before it is sanitized; empty for an error. */
  function AnswerOf(env: Env, cfg: Config, turns: seq<Turn>): string {
    var h, next := Seen(turns), Next(env, cfg, Seen(turns));
    if next.Go? || next.end.Failed? then ""
    else if next.end.Answered? && next.end.content != "" then next.end.content
    else if h.calls > 0 then env.summarized(h.calls, ModelCalls(env, cfg, turns))
    else ""
  }

  /** The task result, with a default summary when calls were made but no answer came. */
  method Report(env: Env, cfg: Config, run: Run, end: End, ghost turns: seq<Turn>)
      returns (result: TaskResult, ghost answer: string)
    requires forall a, b :: env.summarized(a, b) != ""
    requires Complete(env, cfg, turns) && Next(env, cfg, Seen(turns)) == Stop(end)
    requires run.totalToolCalls == Seen(turns).calls && run.totalIters == ModelCalls(env, cfg, turns)
    ensures result == TaskResult(env.sanitize(answer), run.log, run.totalToolCalls, run.totalIters, result.error)
    ensures answer == AnswerOf(env, cfg, turns)
    ensures result.error == if answer != "" then None else Some(if end.Failed? then ModelFailed else MaxIterations)
    ensures result.error == Some(MaxIterations) ==> run.totalToolCalls == 0
  {
    var finalContent := if end.Answered? then end.content else "";
    var lastError := if end.Failed? then Some(ModelFailed) else None;
    if finalContent == "" && lastError == None {
      if run.totalToolCalls > 0 {
        finalContent := env.summarized(run.totalToolCalls, run.totalIters);
      } else {
        lastError := Some(MaxIterations);
      }
    }
    result, answer := TaskResult(env.sanitize(finalContent), run.log, run.totalToolCalls, run.totalIters, lastError),
      finalContent;
  }

  /** executeReact: the one run that the model's replies allow, with the conversation and the
      log of its turns. */
  method ExecuteReact(env: Env, cfg: Config, prompt: string, task: string)
    returns (result: TaskResult, ghost turns: seq<Turn>, ghost conversation: seq<Message>, ghost answer: string)
    requires forall a, b :: env.summarized(a, b) != ""
    ensures Complete(env, cfg, turns)
    ensures Holds(env, cfg, [SystemMessage(prompt), UserMessage(task)], conversation, turns,
            !Next(env, cfg, Seen(turns)).end.Exhausted?)
    ensures result.log == AllEntries(env, turns) && result.toolCallsMade == |result.log| == Seen(turns).calls
    ensures result.iterations == ModelCalls(env, cfg, turns)
    ensures answer == AnswerOf(env, cfg, turns) && result.content == env.sanitize(answer)
    ensures result.error == None <==> answer != ""
    ensures result.error == Some(MaxIterations) ==> result.toolCallsMade == 0
  {
    var context := new Context();
    ghost var opening := [SystemMessage(prompt), UserMessage(task)];
    context.Add(SystemMessage(prompt));
    context.Add(UserMessage(task));
    var run := Run(0, 0, [], false, false);
    var maxRounds := MaxRounds(cfg);
    ghost var h := Seen([]);
    turns := [];
    var round, end := 0, Exhausted;
    while round <= maxRounds
      invariant InStep(env, cfg, run, turns, h) && Holds(env, cfg, opening, context.messages, turns, false) &&
                end == Exhausted
      invariant round <= maxRounds ==> round == h.rounds && h.inRound == h.callsInRound == 0
      invariant round > maxRounds ==> Next(env, cfg, h) == Stop(Exhausted)
    {
      var roundStartTools := run.totalToolCalls;
      run, end, turns, h := Round(env, cfg, opening, context, run, turns, h);
      if !end.Exhausted? || run.totalToolCalls == roundStartTools {
        break;
      }
      if round < maxRounds {
        ghost var before, resumed := context.messages, Resumed(env.keepGoing(run.totalToolCalls));
        context.Add(UserMessage(env.keepGoing(run.totalToolCalls)));
        HoldsNext(env, cfg, opening, before, turns, resumed, context.messages);
        NextInStep(env, cfg, run, turns, h, resumed, run);
        turns, h := turns + [resumed], See(h, resumed);
      }
      round := round + 1;
    }
    LogMatchesCalls(env, turns);
    conversation := context.messages;
    result, answer := Report(env, cfg, run, end, turns);
  }

  lemma {:induction false} TurnKeepsTask(env: Env, messages: seq<Message>, turn: Turn, task: Message)
    requires StartsWithTask(messages, task)
    ensures StartsWithTask(messages + TurnMessages(env, turn), task) &&
            Systems(messages + TurnMessages(env, turn)) == Systems(messages)
  {
    var more := TurnMessages(env, turn);
    if turn.Ran? {
      var results := Results(env, turn.iter, turn.calls);
      forall i | 0 <= i < |results| ensures results[i].role == Tool {
        assert results[i] == ToolMessage(turn.calls[i].id, env.truncate(ExecOf(env, turn.iter, i).result));
      }
    }
    NoSystems(more);
    SplitConcat(messages, more);
  }

  /** Whatever the run does to its conversation, the system prompt is its only system message
      and the task is still the first of the others. */
  lemma {:induction false} ConversationKeepsTask(env: Env, cfg: Config, prompt: string, task: string, turns: seq<Turn>)
    ensures var now := Conversation(env, cfg, [SystemMessage(prompt), UserMessage(task)], turns);
            && Systems(now) == [SystemMessage(prompt)] && StartsWithTask(now, UserMessage(task))
            && Systems(Upkept(env, cfg, now)) == [SystemMessage(prompt)] &&
               StartsWithTask(Upkept(env, cfg, now), UserMessage(task))
  {
    var opening, first := [SystemMessage(prompt), UserMessage(task)], UserMessage(task);
    if turns == [] {
      Opening(prompt, first);
    } else {
      var front, last := turns[..|turns| - 1], turns[|turns| - 1];
      ConversationKeepsTask(env, cfg, prompt, task, front);
      var before := Conversation(env, cfg, opening, front);
      TurnKeepsTask(env, if last.Resumed? then before else Upkept(env, cfg, before), last, first);
    }
    SmartKeepsTask(env.summary, Conversation(env, cfg, opening, turns), Half(cfg.maxContextTokens), first);
  }
}
