/** The thinking state machine (internal/agent/thinking.go): what one step does to the loop
    state, and what every run of the driver keeps. */
module Thinking {
  import opened Base

  datatype State = Assess | Plan | Execute | Verify | Reflect | Done

  datatype ToolCall = ToolCall(name: string, args: string)

  datatype ActionKind = CallTool | FinalAnswer | NeedInfo | Replan | OtherKind

  datatype Action = Action(kind: ActionKind, toolCall: Option<ToolCall>, finalAnswer: string, question: string)

  datatype Thought = Thought(plan: seq<string>, action: Action, confidence: real, evidence: seq<string>,
                             rootCause: string)

  /** One model call: a transport error, text no thought can be read from, or a thought. */
  datatype Reply = CallFailed | Unparsable | Parsed(thought: Thought)

  /** The final content, by where it comes from. */
  datatype Content = NoContent | BudgetGone | CapsReached | Clarification(question: string) | Given(text: string)

  /** What a run cannot see into: the call hash, the search-call test, the complexity
      heuristic over the recorded failures, and the confidence threshold. */
  datatype Env = Env(hash: ToolCall -> string, isSearch: ToolCall -> bool, isComplex: seq<string> -> bool,
                     threshold: real)

  const WINDOW := 4
  const MAX_PLAN_ITEMS := 8
  const MAX_PARSE_NUDGES := 2

  /** What the loop remembers of its tool calls. calls is the whole history of call hashes,
      of which the running state keeps only the window and the multiplicities. */
  datatype CallLog = CallLog(used: nat, recent: seq<string>, unique: map<string, nat>, searches: nat,
                             calls: seq<string>)

  datatype Caps = Caps(toolBudget: nat, maxReflections: nat, maxReplans: nat)

  /** The loop state. A recorded failure is represented by its tool. */
  datatype Loop = Loop(
    caps: Caps, log: CallLog, thoughts: seq<Thought>, currentPlan: seq<string>, failures: seq<string>,
    reflectionsUsed: nat, replansUsed: nat, finalContent: Content, loopBreakAttempted: nat)

  function NewLoop(caps: Caps): Loop {
    Loop(caps, CallLog(0, [], map[], 0, []), [], [], [], 0, 0, NoContent, 0)
  }

  function LastFour(s: seq<string>): seq<string> {
    if |s| > WINDOW then s[|s| - WINDOW..] else s
  }

  function CapPlan(plan: seq<string>): seq<string> {
    if |plan| <= MAX_PLAN_ITEMS then plan else plan[..MAX_PLAN_ITEMS]
  }

  function Logged(env: Env, log: CallLog, call: ToolCall): CallLog {
    var h := env.hash(call);
    CallLog(log.used + 1,
            LastFour(log.recent + [h]),
            log.unique[h := (if h in log.unique then log.unique[h] else 0) + 1],
            log.searches + (if env.isSearch(call) then 1 else 0),
            log.calls + [h])
  }

  predicate SameAt(window: seq<string>, i: nat, j: nat)
    requires i < j < |window|
  {
    window[i] == window[j]
  }

  /** Two of the remembered calls coincide. */
  predicate Repeats(window: seq<string>) {
    exists i, j {:trigger SameAt(window, i, j)} | 0 <= i < j < |window| :: SameAt(window, i, j)
  }

  /** At least three quarters of the budget used, fewer than half of the calls unique. */
  predicate NearExhausted(log: CallLog, toolBudget: nat) {
    log.used > 0 && 4 * log.used >= 3 * toolBudget && 2 * |log.unique| < log.used
  }

  predicate Trapped(ls: Loop) {
    Repeats(ls.log.recent) || NearExhausted(ls.log, ls.caps.toolBudget)
  }

  predicate BudgetExhausted(ls: Loop) {
    ls.log.used >= ls.caps.toolBudget
  }

  /** A failure of the run itself rather than one of its control-flow entries. */
  predicate RealFailure(tool: string) {
    tool != "verify" && tool != "replan" && tool != "unknown" && tool != ""
  }

  predicate FailureAt(failures: seq<string>, i: nat)
    requires i < |failures|
  {
    RealFailure(failures[i])
  }

  predicate HasToolFailure(failures: seq<string>) {
    exists i {:trigger FailureAt(failures, i)} | 0 <= i < |failures| :: FailureAt(failures, i)
  }

  function Failure(ls: Loop, tool: string): Loop {
    ls.(failures := ls.failures + [tool])
  }

  datatype Outcome = Moved(next: State) | ParseError | CallError
  datatype Result = Result(ls: Loop, outcome: Outcome)

  /** Records the call and runs the tool; ok says whether it succeeded. */
  function RunTool(env: Env, ls: Loop, call: ToolCall, ok: bool): Result {
    var ls' := ls.(log := Logged(env, ls.log, call));
    if ok then Result(ls', Moved(Execute)) else Result(Failure(ls', call.name), Moved(Reflect))
  }

  function AssessStep(env: Env, ls: Loop, reply: Reply): Result {
    match reply
    case CallFailed => Result(ls, CallError)
    case Unparsable => Result(ls, ParseError)
    case Parsed(th) =>
      var ls' := ls.(thoughts := ls.thoughts + [th]);
      if !env.isComplex(ls.failures) && th.confidence >= env.threshold && th.action.kind in {CallTool, FinalAnswer} then
        Result(if |th.plan| > 0 then ls'.(currentPlan := CapPlan(th.plan)) else ls', Moved(Execute))
      else
        Result(ls', Moved(Plan))
  }

  function PlanStep(ls: Loop, reply: Reply): Result {
    match reply
    case CallFailed => Result(ls, CallError)
    case Unparsable => Result(ls, ParseError)
    case Parsed(th) => Result(ls.(thoughts := ls.thoughts + [th], currentPlan := CapPlan(th.plan)), Moved(Execute))
  }

  /** The one-shot loop-break nudge applies. */
  predicate Nudges(ls: Loop) {
    && Repeats(ls.log.recent) && ls.loopBreakAttempted == 0
    && !HasToolFailure(ls.failures) && !NearExhausted(ls.log, ls.caps.toolBudget)
  }

  function ExecuteStep(env: Env, ls: Loop, reply: Reply, ok: bool): Result {
    if BudgetExhausted(ls) then Result(ls.(finalContent := BudgetGone), Moved(Done))
    else if Nudges(ls) then ExecuteTurn(env, ls.(loopBreakAttempted := ls.loopBreakAttempted + 1), reply, ok)
    else if Trapped(ls) then Result(Failure(ls, "execute"), Moved(Reflect))
    else ExecuteTurn(env, ls, reply, ok)
  }

  function ExecuteTurn(env: Env, ls: Loop, reply: Reply, ok: bool): Result {
    match reply
    case CallFailed => Result(ls, CallError)
    case Unparsable => Result(ls, ParseError)
    case Parsed(th) =>
      var ls' := ls.(thoughts := ls.thoughts + [th]);
      match th.action.kind
      case FinalAnswer => Result(ls'.(finalContent := Given(th.action.finalAnswer)), Moved(Verify))
      case Replan => Result(if th.rootCause != "" then Failure(ls', "replan") else ls', Moved(Reflect))
      case NeedInfo => Result(ls'.(finalContent := Clarification(th.action.question)), Moved(Done))
      case CallTool =>
        (match th.action.toolCall
         case None => Result(Failure(ls', ""), Moved(Reflect))
         case Some(call) => RunTool(env, ls', call, ok))
      case OtherKind => Result(Failure(ls', "unknown"), Moved(Reflect))
  }

  function VerifyStep(ls: Loop): Result {
    if ls.thoughts == [] || |ls.thoughts[|ls.thoughts| - 1].evidence| > 0 || ls.log.used == 0 ||
      !HasToolFailure(ls.failures) then
      Result(ls, Moved(Done))
    else
      Result(Failure(ls, "verify"), Moved(Reflect))
  }

  function ReflectStep(env: Env, ls: Loop, reply: Reply, ok: bool): Result {
    if ls.reflectionsUsed >= ls.caps.maxReflections then
      Result(ls.(finalContent := CapsReached), Moved(Done))
    else
      match reply
      case CallFailed => Result(ls, CallError)
      case Unparsable => Result(ls, ParseError)
      case Parsed(th) =>
        var ls' := ls.(thoughts := ls.thoughts + [th], reflectionsUsed := ls.reflectionsUsed + 1);
        match th.action.kind
        case CallTool =>
          (match th.action.toolCall
           case None => Result(Failure(ls', ""), Moved(Done))
           case Some(call) => RunTool(env, ls', call, ok))
        case FinalAnswer => Result(ls'.(finalContent := Given(th.action.finalAnswer)), Moved(Done))
        case Replan =>
          if ls.replansUsed >= ls.caps.maxReplans then Result(ls'.(finalContent := CapsReached), Moved(Done))
          else Result(ls'.(replansUsed := ls.replansUsed + 1,
                           currentPlan := if |th.plan| > 0 then CapPlan(th.plan) else ls.currentPlan), Moved(Plan))
        case _ =>
          if ls.replansUsed < ls.caps.maxReplans then Result(ls'.(replansUsed := ls.replansUsed + 1), Moved(Plan))
          else Result(ls'.(finalContent := CapsReached), Moved(Done))
  }

  /** One step of the driver from a state other than Done. */
  function Step(env: Env, s: State, ls: Loop, reply: Reply, ok: bool): Result {
    match s
    case Assess => AssessStep(env, ls, reply)
    case Plan => PlanStep(ls, reply)
    case Execute => ExecuteStep(env, ls, reply, ok)
    case Verify => VerifyStep(ls)
    case Reflect => ReflectStep(env, ls, reply, ok)
    case Done => Result(ls, Moved(Done))
  }

  // ---- What every reachable state satisfies ----

  /** m counts how often each hash occurs in s. */
  ghost predicate Multiplicities(m: map<string, nat>, s: seq<string>) {
    forall x :: (x in m <==> x in s) && (x in m ==> m[x] == multiset(s)[x])
  }

  /** The window is the end of the history, the counts are its multiplicities. */
  ghost predicate LogInv(log: CallLog) {
    && log.recent == LastFour(log.calls) && Multiplicities(log.unique, log.calls)
    && log.used == |log.calls| && log.searches <= log.used
  }

  ghost predicate CountersInv(ls: Loop) {
    && ls.reflectionsUsed <= ls.caps.maxReflections
    && ls.replansUsed <= ls.caps.maxReplans && ls.replansUsed <= ls.reflectionsUsed
    && ls.log.used <= ls.caps.toolBudget + ls.reflectionsUsed
    && ls.loopBreakAttempted <= 1 && |ls.currentPlan| <= MAX_PLAN_ITEMS
  }

  ghost predicate Inv(ls: Loop) {
    LogInv(ls.log) && CountersInv(ls)
  }

  lemma {:induction false} NewLoopInv(caps: Caps)
    ensures Inv(NewLoop(caps))
  {
  }

  lemma {:induction false} MultiplicitiesAppend(m: map<string, nat>, s: seq<string>, h: string)
    requires Multiplicities(m, s)
    ensures Multiplicities(m[h := (if h in m then m[h] else 0) + 1], s + [h])
  {
    assert multiset(s + [h]) == multiset(s) + multiset{h};
    assert forall x :: x in s <==> x in multiset(s);
  }

  lemma {:induction false} LoggedInv(env: Env, log: CallLog, call: ToolCall)
    requires LogInv(log)
    ensures LogInv(Logged(env, log, call))
  {
    MultiplicitiesAppend(log.unique, log.calls, env.hash(call));
  }

  /** The call log changes only by logging the call the model asked for. */
  lemma {:induction false} StepLogs(env: Env, s: State, ls: Loop, reply: Reply, ok: bool)
    ensures var log' := Step(env, s, ls, reply, ok).ls.log;
            log' == ls.log ||
            (reply.Parsed? && reply.thought.action.toolCall.Some? &&
             log' == Logged(env, ls.log, reply.thought.action.toolCall.value))
  {
  }

  lemma {:induction false} StepCounters(env: Env, s: State, ls: Loop, reply: Reply, ok: bool)
    requires CountersInv(ls)
    ensures CountersInv(Step(env, s, ls, reply, ok).ls) && Step(env, s, ls, reply, ok).ls.caps == ls.caps
  {
    match s {
      case Execute => ExecuteCounters(env, ls, reply, ok);
      case Reflect => ReflectCounters(env, ls, reply, ok);
      case _ =>
    }
  }

  lemma {:induction false} ExecuteCounters(env: Env, ls: Loop, reply: Reply, ok: bool)
    requires CountersInv(ls)
    ensures CountersInv(ExecuteStep(env, ls, reply, ok).ls) && ExecuteStep(env, ls, reply, ok).ls.caps == ls.caps
  {
  }

  lemma {:induction false} ReflectCounters(env: Env, ls: Loop, reply: Reply, ok: bool)
    requires CountersInv(ls)
    ensures CountersInv(ReflectStep(env, ls, reply, ok).ls) && ReflectStep(env, ls, reply, ok).ls.caps == ls.caps
  {
  }

  /** Every step keeps the invariant, whatever the model answers and whether or not the tool
      works: counters within their caps, the window and the multiplicities true to the
      history, and at most one tool call beyond the budget per reflection. */
  lemma {:induction false} StepKeepsInv(env: Env, s: State, ls: Loop, reply: Reply, ok: bool)
    requires Inv(ls)
    ensures Inv(Step(env, s, ls, reply, ok).ls) && Step(env, s, ls, reply, ok).ls.caps == ls.caps
  {
    StepCounters(env, s, ls, reply, ok);
    StepLogs(env, s, ls, reply, ok);
    if reply.Parsed? && reply.thought.action.toolCall.Some? {
      LoggedInv(env, ls.log, reply.thought.action.toolCall.value);
    }
  }

  // ---- How many transitions a run can take ----

  function Minus(a: nat, b: nat): nat {
    if a >= b then a - b else 0
  }

  /** Transitions that q reflections can add with p replans left: one with a replan adds four,
      one without runs a tool and adds two, since the call is missing from the budget later. */
  function Gain(q: nat, p: nat): nat {
    if p < q then 2 * q + 2 * p else 4 * q
  }

  /** Bounds on the transitions left, from the tool calls b, reflections q and replans p left,
      whether a tool failure is on record, and whether Execute would go straight to Reflect. */
  function FromReflect(b: nat, q: nat, p: nat, failed: bool, trapped: bool): nat {
    if q == 0 then 1
    else if failed then if trapped && q <= p then b + Gain(q, p) - 1 else b + Gain(q, p)
    else if b == 0 then Gain(q, p)
    else b + Gain(q, p) - 1
  }

  function FromExecute(b: nat, q: nat, p: nat, failed: bool, trapped: bool): nat {
    if b == 0 then 1
    else if failed then if trapped then 1 + FromReflect(b, q, p, failed, trapped) else b + Gain(q, p) + 2
    else if p < q || q == 0 then b + Gain(q, p) + 1
    else b + Gain(q, p)
  }

  function Bound(s: State, b: nat, q: nat, p: nat, failed: bool, trapped: bool): nat {
    match s
    case Assess => 2 + FromExecute(b, q, p, failed, trapped)
    case Plan => 1 + FromExecute(b, q, p, failed, trapped)
    case Execute => FromExecute(b, q, p, failed, trapped)
    case Verify => if failed then 1 + FromReflect(b, q, p, failed, trapped) else 1
    case Reflect => FromReflect(b, q, p, failed, trapped)
    case Done => 0
  }

  /** An upper bound on the transitions a run without parse failures can still take. */
  function Potential(s: State, ls: Loop): nat {
    Bound(s, Minus(ls.caps.toolBudget, ls.log.used), Minus(ls.caps.maxReflections, ls.reflectionsUsed),
          Minus(ls.caps.maxReplans, ls.replansUsed), HasToolFailure(ls.failures), Trapped(ls))
  }

  /** A result that uses up some of the bound n. */
  ghost predicate Spends(r: Result, n: nat) {
    r.outcome.Moved? ==> Potential(r.outcome.next, r.ls) < n
  }

  lemma {:induction false} FailureAppend(failures: seq<string>, tool: string)
    ensures HasToolFailure(failures + [tool]) <==> HasToolFailure(failures) || RealFailure(tool)
  {
    var all := failures + [tool];
    if HasToolFailure(failures) {
      var i :| 0 <= i < |failures| && FailureAt(failures, i);
      assert FailureAt(all, i);
    }
    if HasToolFailure(all) {
      var i :| 0 <= i < |all| && FailureAt(all, i);
      assert i < |failures| ==> FailureAt(failures, i);
    }
    assert FailureAt(all, |failures|) == RealFailure(tool);
  }

  /** Both continuations of a tool call that leaves b calls are below the bound. */
  ghost predicate CallLowers(b: nat, q: nat, p: nat, failed: bool, bound: nat) {
    forall failed', trapped | failed ==> failed' ::
      && FromReflect(b, q, p, failed', trapped) < bound
      && (failed' == failed ==> FromExecute(b, q, p, failed', trapped) < bound)
  }

  lemma {:induction false} ExecutedCallLowers(b: nat, q: nat, p: nat, failed: bool, trapped: bool)
    requires b > 0 && !(failed && trapped)
    ensures CallLowers(b - 1, q, p, failed, FromExecute(b, q, p, failed, trapped))
  {
  }

  lemma {:induction false} ReflectedCallLowers(b: nat, q: nat, p: nat, failed: bool, trapped: bool)
    requires q > 0
    ensures CallLowers(Minus(b, 1), q - 1, p, failed, FromReflect(b, q, p, failed, trapped))
  {
  }

  lemma {:induction false} ReplanLowers(b: nat, q: nat, p: nat, failed: bool, trapped: bool)
    requires q > 0 && p > 0
    ensures Bound(Plan, b, q - 1, p - 1, failed, trapped) < FromReflect(b, q, p, failed, trapped)
  {
  }

  lemma {:induction false} RunToolPotential(env: Env, ls: Loop, call: ToolCall, ok: bool, b: nat, q: nat, p: nat,
                                            bound: nat)
    requires b == Minus(ls.caps.toolBudget, ls.log.used + 1)
    requires q == Minus(ls.caps.maxReflections, ls.reflectionsUsed) && p == Minus(ls.caps.maxReplans, ls.replansUsed)
    requires CallLowers(b, q, p, HasToolFailure(ls.failures), bound)
    ensures Spends(RunTool(env, ls, call, ok), bound)
  {
    FailureAppend(ls.failures, call.name);
    var r := RunTool(env, ls, call, ok);
    assert FromReflect(b, q, p, HasToolFailure(r.ls.failures), Trapped(r.ls)) < bound;
    assert ok ==> FromExecute(b, q, p, HasToolFailure(ls.failures), Trapped(r.ls)) < bound;
  }

  lemma {:induction false} ExecutedCallPotential(env: Env, ls: Loop, ls': Loop, call: ToolCall, ok: bool)
    requires !BudgetExhausted(ls) && (HasToolFailure(ls.failures) ==> !Trapped(ls))
    requires ls' == ls.(thoughts := ls'.thoughts)
    ensures Spends(RunTool(env, ls', call, ok), Potential(Execute, ls))
  {
    var b, q := Minus(ls.caps.toolBudget, ls.log.used), Minus(ls.caps.maxReflections, ls.reflectionsUsed);
    var p := Minus(ls.caps.maxReplans, ls.replansUsed);
    ExecutedCallLowers(b, q, p, HasToolFailure(ls.failures), Trapped(ls));
    RunToolPotential(env, ls', call, ok, b - 1, q, p, Potential(Execute, ls));
  }

  lemma {:induction false} ExecuteTurnPotential(env: Env, ls: Loop, reply: Reply, ok: bool)
    requires !BudgetExhausted(ls) && (HasToolFailure(ls.failures) ==> !Trapped(ls))
    ensures Spends(ExecuteTurn(env, ls, reply, ok), Potential(Execute, ls))
  {
    if reply.Parsed? {
      var th := reply.thought;
      if th.action.kind == CallTool && th.action.toolCall.Some? {
        ExecutedCallPotential(env, ls, ls.(thoughts := ls.thoughts + [th]), th.action.toolCall.value, ok);
      } else {
        FailureAppend(ls.failures, "replan");
        FailureAppend(ls.failures, "");
        FailureAppend(ls.failures, "unknown");
      }
    }
  }

  /** The one-time nudge is not part of the bound. */
  lemma {:induction false} NudgePotential(s: State, ls: Loop, n: nat)
    ensures Potential(s, ls.(loopBreakAttempted := n)) == Potential(s, ls)
  {
  }

  lemma {:induction false} TrappedPotential(ls: Loop)
    requires !BudgetExhausted(ls) && Trapped(ls) && !Nudges(ls)
    ensures Potential(Reflect, Failure(ls, "execute")) < Potential(Execute, ls)
  {
    FailureAppend(ls.failures, "execute");
  }

  lemma {:induction false} NudgedPotential(env: Env, ls: Loop, bumped: Loop, reply: Reply, ok: bool)
    requires !BudgetExhausted(ls) && Nudges(ls) && bumped == ls.(loopBreakAttempted := ls.loopBreakAttempted + 1)
    ensures Spends(ExecuteTurn(env, bumped, reply, ok), Potential(Execute, ls))
  {
    NudgePotential(Execute, ls, ls.loopBreakAttempted + 1);
    ExecuteTurnPotential(env, bumped, reply, ok);
  }

  lemma {:induction false} ExecutePotential(env: Env, ls: Loop, reply: Reply, ok: bool)
    ensures Spends(ExecuteStep(env, ls, reply, ok), Potential(Execute, ls))
  {
    if BudgetExhausted(ls) {
      ExhaustedPotential(env, ls, reply, ok);
    } else if Nudges(ls) {
      NudgedPotential(env, ls, ls.(loopBreakAttempted := ls.loopBreakAttempted + 1), reply, ok);
    } else if Trapped(ls) {
      TrappedPotential(ls);
    } else {
      ExecuteTurnPotential(env, ls, reply, ok);
    }
  }

  lemma {:induction false} ExhaustedPotential(env: Env, ls: Loop, reply: Reply, ok: bool)
    requires BudgetExhausted(ls)
    ensures Spends(ExecuteStep(env, ls, reply, ok), Potential(Execute, ls))
  {
  }

  /** Only a reflection, and perhaps a replan, has been used in between. */
  ghost predicate Reflected(ls: Loop, ls': Loop, replans: nat) {
    && ls.reflectionsUsed < ls.caps.maxReflections && ls'.caps == ls.caps && ls'.log == ls.log &&
       ls'.failures == ls.failures
    && ls'.reflectionsUsed == ls.reflectionsUsed + 1 && ls'.replansUsed == ls.replansUsed + replans
  }

  lemma {:induction false} ReflectedCallPotential(env: Env, ls: Loop, ls': Loop, call: ToolCall, ok: bool)
    requires Reflected(ls, ls', 0)
    ensures Spends(RunTool(env, ls', call, ok), Potential(Reflect, ls))
  {
    var b, q := Minus(ls.caps.toolBudget, ls.log.used), Minus(ls.caps.maxReflections, ls.reflectionsUsed);
    var p := Minus(ls.caps.maxReplans, ls.replansUsed);
    ReflectedCallLowers(b, q, p, HasToolFailure(ls.failures), Trapped(ls));
    RunToolPotential(env, ls', call, ok, Minus(b, 1), q - 1, p, Potential(Reflect, ls));
  }

  lemma {:induction false} ReplannedPotential(ls: Loop, ls': Loop)
    requires Reflected(ls, ls', 1) && ls.replansUsed < ls.caps.maxReplans
    ensures Potential(Plan, ls') < Potential(Reflect, ls)
  {
    var b, q := Minus(ls.caps.toolBudget, ls.log.used), Minus(ls.caps.maxReflections, ls.reflectionsUsed);
    ReplanLowers(b, q, Minus(ls.caps.maxReplans, ls.replansUsed), HasToolFailure(ls.failures), Trapped(ls));
  }

  lemma {:induction false} ReflectPotential(env: Env, ls: Loop, reply: Reply, ok: bool)
    ensures Spends(ReflectStep(env, ls, reply, ok), Potential(Reflect, ls))
  {
    var r := ReflectStep(env, ls, reply, ok);
    if r.outcome.Moved? && r.outcome.next != Done {
      var ls' := ls.(thoughts := ls.thoughts + [reply.thought], reflectionsUsed := ls.reflectionsUsed + 1);
      if reply.thought.action.kind == CallTool {
        ReflectedCallPotential(env, ls, ls', reply.thought.action.toolCall.value, ok);
      } else {
        ReplannedPotential(ls, r.ls);
      }
    }
  }

  lemma {:induction false} VerifyPotential(ls: Loop)
    ensures Spends(VerifyStep(ls), Potential(Verify, ls))
  {
    FailureAppend(ls.failures, "verify");
  }

  lemma {:induction false} AssessPotential(env: Env, ls: Loop, reply: Reply)
    ensures Spends(AssessStep(env, ls, reply), Potential(Assess, ls))
  {
  }

  /** Every transition uses up some of the bound. */
  lemma {:induction false} TransitionProgress(env: Env, s: State, ls: Loop, reply: Reply, ok: bool)
    requires s != Done
    ensures Spends(Step(env, s, ls, reply, ok), Potential(s, ls))
  {
    match s {
      case Assess => AssessPotential(env, ls, reply);
      case Plan =>
      case Execute => ExecutePotential(env, ls, reply, ok);
      case Verify => VerifyPotential(ls);
      case Reflect => ReflectPotential(env, ls, reply, ok);
    }
  }

  /** A step that fails to parse leaves at least as little to do. */
  lemma {:induction false} ParseErrorKeepsPotential(env: Env, s: State, ls: Loop, reply: Reply, ok: bool)
    requires Step(env, s, ls, reply, ok).outcome == ParseError
    ensures Potential(s, Step(env, s, ls, reply, ok).ls) == Potential(s, ls)
  {
  }

  /** The most transitions a run can take. */
  function WorstCase(caps: Caps): nat {
    if caps.maxReplans < caps.maxReflections then caps.toolBudget + 2 * caps.maxReflections + 2 * caps.maxReplans + 3
    else caps.toolBudget + 4 * caps.maxReflections + 2
  }

  lemma {:induction false} FreshPotential(caps: Caps)
    requires caps.toolBudget > 0 && caps.maxReflections > 0
    ensures Potential(Assess, NewLoop(caps)) == WorstCase(caps)
  {
  }

  // ---- The bound is attained ----

  /** Some answer of the model and the tools moves the machine so. */
  ghost predicate Moves(env: Env, s: State, ls: Loop, s': State, ls': Loop) {
    s != Done && exists reply, ok :: Step(env, s, ls, reply, ok) == Result(ls', Moved(s'))
  }

  datatype Config = Config(s: State, ls: Loop)

  ghost predicate MovesAt(env: Env, run: seq<Config>, i: nat)
    requires i + 1 < |run|
  {
    Moves(env, run[i].s, run[i].ls, run[i + 1].s, run[i + 1].ls)
  }

  ghost predicate IsRun(env: Env, run: seq<Config>) {
    forall i {:trigger MovesAt(env, run, i)} | 0 <= i < |run| - 1 :: MovesAt(env, run, i)
  }

  /** Some answers take exactly n transitions from here to Done. */
  ghost predicate CanTake(env: Env, s: State, ls: Loop, n: nat) {
    exists run: seq<Config> :: |run| == n + 1 && run[0] == Config(s, ls) && run[n].s == Done && IsRun(env, run)
  }

  lemma {:induction false} OneMore(env: Env, s: State, ls: Loop, s': State, ls': Loop, n: nat)
    requires n > 0 && Moves(env, s, ls, s', ls') && CanTake(env, s', ls', n - 1)
    ensures CanTake(env, s, ls, n)
  {
    var run: seq<Config> :| |run| == n && run[0] == Config(s', ls') && run[n - 1].s == Done && IsRun(env, run);
    var longer := [Config(s, ls)] + run;
    forall i | 0 <= i < |longer| - 1 ensures MovesAt(env, longer, i) {
      if i > 0 {
        assert MovesAt(env, run, i - 1);
      }
    }
  }

  lemma {:induction false} Chain(env: Env, s0: State, ls0: Loop, s1: State, ls1: Loop, s2: State, ls2: Loop, n: nat)
    requires Moves(env, s0, ls0, s1, ls1) && Moves(env, s1, ls1, s2, ls2) && CanTake(env, s2, ls2, n)
    ensures CanTake(env, s0, ls0, n + 2)
  {
    OneMore(env, s1, ls1, s2, ls2, n + 1);
    OneMore(env, s0, ls0, s1, ls1, n + 2);
  }

  /** No run takes more transitions than the potential of where it starts. */
  lemma {:induction false} NoLongerRun(env: Env, run: seq<Config>, k: nat)
    requires IsRun(env, run) && k < |run|
    ensures Potential(run[k].s, run[k].ls) + k <= Potential(run[0].s, run[0].ls)
  {
    if k > 0 {
      NoLongerRun(env, run, k - 1);
      var c := run[k - 1];
      assert MovesAt(env, run, k - 1);
      var reply, ok :| Step(env, c.s, c.ls, reply, ok) == Result(run[k].ls, Moved(run[k].s));
      TransitionProgress(env, c.s, c.ls, reply, ok);
    }
  }

  function Says(kind: ActionKind, call: Option<ToolCall>): Reply {
    Parsed(Thought([], Action(kind, call, "", ""), 0.0, [], ""))
  }

  /** A state in which a tool has failed and Execute would ask the model. */
  ghost predicate Struggling(ls: Loop) {
    HasToolFailure(ls.failures) && !Trapped(ls) && !BudgetExhausted(ls) && ls.log.used > 0
  }

  lemma {:induction false} ClaimDone(env: Env, ls: Loop) returns (ls1: Loop, ls2: Loop)
    requires Struggling(ls)
    ensures Moves(env, Execute, ls, Verify, ls1) && Moves(env, Verify, ls1, Reflect, ls2)
    ensures Struggling(ls2) && ls2.caps == ls.caps && ls2.log == ls.log
    ensures ls2.reflectionsUsed == ls.reflectionsUsed && ls2.replansUsed == ls.replansUsed
  {
    var done := Says(FinalAnswer, None);
    ls1 := Step(env, Execute, ls, done, true).ls;
    ls2 := Step(env, Verify, ls1, done, true).ls;
    assert Step(env, Execute, ls, done, true) == Result(ls1, Moved(Verify));
    assert Step(env, Verify, ls1, done, true) == Result(ls2, Moved(Reflect));
    FailureAppend(ls.failures, "verify");
  }

  lemma {:induction false} AskReplan(env: Env, ls: Loop) returns (ls1: Loop, ls2: Loop)
    requires ls.reflectionsUsed < ls.caps.maxReflections && ls.replansUsed < ls.caps.maxReplans
    ensures Moves(env, Reflect, ls, Plan, ls1) && Moves(env, Plan, ls1, Execute, ls2)
    ensures ls2.caps == ls.caps && ls2.log == ls.log && ls2.failures == ls.failures
    ensures ls2.reflectionsUsed == ls.reflectionsUsed + 1 && ls2.replansUsed == ls.replansUsed + 1
  {
    var again := Says(Replan, None);
    ls1 := Step(env, Reflect, ls, again, true).ls;
    ls2 := Step(env, Plan, ls1, again, true).ls;
    assert Step(env, Reflect, ls, again, true) == Result(ls1, Moved(Plan));
    assert Step(env, Plan, ls1, again, true) == Result(ls2, Moved(Execute));
  }

  lemma {:induction false} GiveUp(env: Env, ls: Loop)
    requires ls.reflectionsUsed == ls.caps.maxReflections
    ensures CanTake(env, Reflect, ls, 1)
  {
    var ls1 := ls.(finalContent := CapsReached);
    assert Step(env, Reflect, ls, CallFailed, true) == Result(ls1, Moved(Done));
    var run := [Config(Reflect, ls), Config(Done, ls1)];
    assert MovesAt(env, run, 0);
  }

  /** Once a tool has failed, four transitions for every reflection left. */
  lemma {:induction false} LongReflections(env: Env, ls: Loop, q: nat)
    requires Struggling(ls)
    requires ls.reflectionsUsed + q == ls.caps.maxReflections && ls.replansUsed + q <= ls.caps.maxReplans
    ensures CanTake(env, Execute, ls, 4 * q + 3)
    decreases q
  {
    var ls1, ls2 := ClaimDone(env, ls);
    if q == 0 {
      GiveUp(env, ls2);
    } else {
      var ls3, ls4 := AskReplan(env, ls2);
      LongReflections(env, ls4, q - 1);
      Chain(env, Reflect, ls2, Plan, ls3, Execute, ls4, 4 * q - 1);
    }
    Chain(env, Execute, ls, Verify, ls1, Reflect, ls2, 4 * q + 1);
  }

  /** Calls told apart by name, and tasks always taken to be complex. */
  function NamedCalls(): Env {
    Env((c: ToolCall) => c.name, (c: ToolCall) => false, (f: seq<string>) => true, 0.0)
  }

  function Tally(n: nat): string {
    seq(n, i => 'x')
  }

  /** All calls so far had different names, each shorter than the tally of their number. */
  ghost predicate AllDifferent(log: CallLog) {
    && log.recent == LastFour(log.calls) && log.used == |log.calls| == |log.unique|
    && (forall i | 0 <= i < |log.calls| :: |log.calls[i]| == i + 1)
    && (forall x | x in log.unique :: 0 < |x| <= log.used)
  }

  lemma {:induction false} DifferentNotTrapped(ls: Loop)
    requires AllDifferent(ls.log)
    ensures !Trapped(ls)
  {
    forall i, j | 0 <= i < j < |ls.log.recent| ensures !SameAt(ls.log.recent, i, j) {
      assert |ls.log.recent[i]| != |ls.log.recent[j]|;
    }
  }

  lemma {:induction false} DifferentAgain(log: CallLog)
    requires AllDifferent(log)
    ensures AllDifferent(Logged(NamedCalls(), log, ToolCall(Tally(log.used + 1), "")))
  {
    var h := Tally(log.used + 1);
    assert h !in log.unique;
    var log' := Logged(NamedCalls(), log, ToolCall(h, ""));
    assert log'.unique.Keys == log.unique.Keys + {h};
    assert |log'.unique| == |log'.unique.Keys| && |log.unique| == |log.unique.Keys|;
  }

  lemma {:induction false} TallyIsReal(n: nat)
    requires n > 0
    ensures RealFailure(Tally(n))
  {
    assert Tally(n)[0] == 'x' && "verify"[0] == 'v' && "replan"[0] == 'r' && "unknown"[0] == 'u';
  }

  function CallReply(ls: Loop): Reply {
    Says(CallTool, Some(ToolCall(Tally(ls.log.used + 1), "")))
  }

  /** The state after one more, differently named, call. */
  function Called(ls: Loop, ok: bool): Loop {
    var call := CallReply(ls);
    var ls' := ls.(thoughts := ls.thoughts + [call.thought], log :=
      Logged(NamedCalls(), ls.log, call.thought.action.toolCall.value));
    if ok then ls' else Failure(ls', Tally(ls.log.used + 1))
  }

  lemma {:induction false} CallDifferently(ls: Loop, ok: bool, n: nat) returns (ls': Loop)
    requires AllDifferent(ls.log) && ls.failures == [] && !BudgetExhausted(ls) && n > 0
    ensures AllDifferent(ls'.log) && ls'.log.used == ls.log.used + 1
    ensures if ok then ls'.failures == [] else HasToolFailure(ls'.failures)
    ensures ls'.caps == ls.caps && ls'.reflectionsUsed == ls.reflectionsUsed && ls'.replansUsed == ls.replansUsed
    ensures ls'.loopBreakAttempted == ls.loopBreakAttempted
    ensures CanTake(NamedCalls(), if ok then Execute else Reflect, ls', n - 1) ==> CanTake(NamedCalls(), Execute, ls, n)
  {
    ls' := Called(ls, ok);
    DifferentNotTrapped(ls);
    DifferentAgain(ls.log);
    FailureAppend([], Tally(ls.log.used + 1));
    TallyIsReal(ls.log.used + 1);
    if CanTake(NamedCalls(), if ok then Execute else Reflect, ls', n - 1) {
      CallFirst(ls, ok, n);
    }
  }

  lemma {:induction false} CallFirst(ls: Loop, ok: bool, n: nat)
    requires !Trapped(ls) && !BudgetExhausted(ls) && n > 0
    requires CanTake(NamedCalls(), if ok then Execute else Reflect, Called(ls, ok), n - 1)
    ensures CanTake(NamedCalls(), Execute, ls, n)
  {
    var s' := if ok then Execute else Reflect;
    assert Step(NamedCalls(), Execute, ls, CallReply(ls), ok) == Result(Called(ls, ok), Moved(s'));
    OneMore(NamedCalls(), Execute, ls, s', Called(ls, ok), n);
  }

  /** From Reflect: replan and claim to be done, as long as there are reflections left. */
  lemma {:induction false} ReplanReflections(env: Env, ls: Loop, q: nat, n: nat)
    requires Struggling(ls) && n == 4 * q + 1
    requires ls.reflectionsUsed + q == ls.caps.maxReflections && ls.replansUsed + q <= ls.caps.maxReplans
    ensures CanTake(env, Reflect, ls, n)
  {
    if q == 0 {
      GiveUp(env, ls);
    } else {
      var ls1, ls2 := AskReplan(env, ls);
      LongReflections(env, ls2, q - 1);
      Chain(env, Reflect, ls, Plan, ls1, Execute, ls2, 4 * q - 1);
    }
  }

  lemma {:induction false} LastCallFails(ls: Loop, n: nat)
    requires AllDifferent(ls.log) && ls.failures == [] && ls.log.used + 2 == ls.caps.toolBudget
    requires ls.reflectionsUsed == ls.replansUsed == 0 < ls.caps.maxReflections <= ls.caps.maxReplans
    requires n == 4 * ls.caps.maxReflections + 2
    ensures CanTake(NamedCalls(), Execute, ls, n)
  {
    var ls' := CallDifferently(ls, false, n);
    DifferentNotTrapped(ls');
    ReplanReflections(NamedCalls(), ls', ls.caps.maxReflections, n - 1);
  }

  /** All but one tool call succeed, then one fails, then come the reflections. */
  lemma {:induction false} LongExecution(ls: Loop, n: nat)
    requires AllDifferent(ls.log) && ls.failures == [] && ls.log.used + 1 < ls.caps.toolBudget
    requires ls.reflectionsUsed == ls.replansUsed == 0 < ls.caps.maxReflections <= ls.caps.maxReplans
    requires n == ls.caps.toolBudget - ls.log.used + 4 * ls.caps.maxReflections
    ensures CanTake(NamedCalls(), Execute, ls, n)
    decreases n
  {
    if ls.log.used + 2 < ls.caps.toolBudget {
      var ls' := CallDifferently(ls, true, n);
      LongExecution(ls', n - 1);
    } else {
      LastCallFails(ls, n);
    }
  }

  // ---- The bound is attained with fewer replans than reflections ----

  /** Few calls so far were repeats, and one more that is not ends every repetition in the
      window. */
  ghost predicate Recovering(log: CallLog) {
    && |log.recent| <= WINDOW && !Repeats(if |log.recent| == WINDOW then log.recent[1..] else log.recent)
    && (forall x | x in log.recent :: |x| <= log.used) && (forall x | x in log.unique :: |x| <= log.used)
    && 4 <= log.used <= |log.unique| + 2
  }

  lemma {:induction false} FreshCallRecovers(ls: Loop, log: CallLog)
    requires Recovering(log) && ls.log == Logged(NamedCalls(), log, ToolCall(Tally(log.used + 1), ""))
    ensures Recovering(ls.log) && !Trapped(ls)
  {
    var h, w := Tally(log.used + 1), ls.log.recent;
    assert h !in log.unique && h !in log.recent;
    assert ls.log.unique.Keys == log.unique.Keys + {h};
    assert |ls.log.unique| == |ls.log.unique.Keys| && |log.unique| == |log.unique.Keys|;
    var kept := if |log.recent| == WINDOW then log.recent[1..] else log.recent;
    assert w == kept + [h];
    forall i, j | 0 <= i < j < |w| ensures !SameAt(w, i, j) {
      if j < |kept| {
        assert !SameAt(kept, i, j);
      } else {
        assert kept[i] in log.recent;
      }
    }
    forall i, j | 0 <= i < j < |w[1..]| ensures !SameAt(w[1..], i, j) {
      assert !SameAt(w, i + 1, j + 1);
    }
  }

  lemma {:induction false} ReflectCalls(ls: Loop, ls1: Loop)
    requires ls.reflectionsUsed < ls.caps.maxReflections &&
             ls1 == Called(ls, true).(reflectionsUsed := ls.reflectionsUsed + 1)
    ensures Moves(NamedCalls(), Reflect, ls, Execute, ls1)
  {
    assert Step(NamedCalls(), Reflect, ls, CallReply(ls), true) == Result(ls1, Moved(Execute));
  }

  /** Reflect runs a tool. */
  lemma {:induction false} ReflectedCall(ls: Loop) returns (ls1: Loop)
    requires Recovering(ls.log) && ls.reflectionsUsed < ls.caps.maxReflections && HasToolFailure(ls.failures)
    requires ls.log.used + 1 < ls.caps.toolBudget
    ensures Moves(NamedCalls(), Reflect, ls, Execute, ls1)
    ensures Struggling(ls1) && Recovering(ls1.log) && ls1.caps == ls.caps && ls1.log.used == ls.log.used + 1
    ensures ls1.reflectionsUsed == ls.reflectionsUsed + 1 && ls1.replansUsed == ls.replansUsed
  {
    ls1 := Called(ls, true).(reflectionsUsed := ls.reflectionsUsed + 1);
    ReflectCalls(ls, ls1);
    FreshCallRecovers(ls1, ls.log);
  }

  /** Reflect runs a tool, Execute claims to be done, Verify rejects the claim. */
  lemma {:induction false} RejectedCall(ls: Loop, n: nat) returns (ls': Loop)
    requires Recovering(ls.log) && ls.reflectionsUsed < ls.caps.maxReflections && HasToolFailure(ls.failures)
    requires ls.log.used + 1 < ls.caps.toolBudget
    ensures Struggling(ls') && Recovering(ls'.log) && ls'.caps == ls.caps && ls'.log.used == ls.log.used + 1
    ensures ls'.reflectionsUsed == ls.reflectionsUsed + 1 && ls'.replansUsed == ls.replansUsed
    ensures CanTake(NamedCalls(), Reflect, ls', n) ==> CanTake(NamedCalls(), Reflect, ls, n + 3)
  {
    var ls1 := ReflectedCall(ls);
    var ls2;
    ls2, ls' := ClaimDone(NamedCalls(), ls1);
    if CanTake(NamedCalls(), Reflect, ls', n) {
      Chain(NamedCalls(), Execute, ls1, Verify, ls2, Reflect, ls', n);
      OneMore(NamedCalls(), Reflect, ls, Execute, ls1, n + 3);
    }
  }

  /** First the r reflections for which there is no replan, then the q others. */
  lemma {:induction false} ToolReflections(ls: Loop, r: nat, q: nat, n: nat)
    requires Recovering(ls.log) && HasToolFailure(ls.failures) && r > 0 && ls.log.used + r < ls.caps.toolBudget
    requires ls.reflectionsUsed + r + q == ls.caps.maxReflections && ls.replansUsed + q <= ls.caps.maxReplans
    requires n == 3 * r + 4 * q + 1
    ensures CanTake(NamedCalls(), Reflect, ls, n)
    decreases r
  {
    var ls' := RejectedCall(ls, n - 3);
    if r == 1 {
      ReplanReflections(NamedCalls(), ls', q, n - 3);
    } else {
      ToolReflections(ls', r - 1, q, n - 3);
    }
  }

  /** The state after a successful call under this name. */
  function CalledAs(ls: Loop, name: string): Loop {
    var th := Says(CallTool, Some(ToolCall(name, ""))).thought;
    ls.(thoughts := ls.thoughts + [th], log := Logged(NamedCalls(), ls.log, ToolCall(name, "")))
  }

  lemma {:induction false} CallAs(ls: Loop, name: string) returns (ls': Loop)
    requires !BudgetExhausted(ls) && (Trapped(ls) ==> Nudges(ls))
    ensures Moves(NamedCalls(), Execute, ls, Execute, ls')
    ensures ls' == CalledAs(ls, name).(loopBreakAttempted := ls.loopBreakAttempted + if Nudges(ls) then 1 else 0)
  {
    ls' := CalledAs(ls, name).(loopBreakAttempted := ls.loopBreakAttempted + if Nudges(ls) then 1 else 0);
    assert Step(NamedCalls(), Execute, ls, Says(CallTool, Some(ToolCall(name, ""))), true) ==
           Result(ls', Moved(Execute));
  }

  lemma {:induction false} LogAgain(log: CallLog, name: string, log': CallLog)
    requires log' == Logged(NamedCalls(), log, ToolCall(name, ""))
    ensures log'.used == log.used + 1 && log'.recent == LastFour(log.recent + [name])
    ensures log'.unique.Keys == log.unique.Keys + {name} && |log'.unique| >= |log.unique|
  {
    assert log'.unique.Keys == log.unique.Keys + {name};
    assert |log'.unique| == |log'.unique.Keys| && |log.unique| == |log.unique.Keys|;
  }

  lemma {:induction false} WindowsOfRepeats(w: seq<string>, a: string, b: string, c: string)
    requires 3 <= |w| <= WINDOW && w[|w| - 3..] == [a, b, c]
    ensures LastFour(w + [a]) == [a, b, c, a] && LastFour(LastFour(w + [a]) + [b]) == [b, c, a, b]
    ensures Repeats([a, b, c, a]) && Repeats([b, c, a, b])
  {
    assert w == w[..|w| - 3] + [a, b, c];
    assert LastFour(w + [a]) == [a, b, c, a];
    assert SameAt([a, b, c, a], 0, 3) && SameAt([b, c, a, b], 0, 3);
  }

  lemma {:induction false} ThreeDiffer(a: string, b: string, c: string)
    requires |a| < |b| < |c|
    ensures !Repeats([c, a, b])
  {
    var w := [c, a, b];
    forall i, j | 0 <= i < j < |w| ensures !SameAt(w, i, j) {
      assert |w[0]| > |w[2]| > |w[1]|;
    }
  }

  lemma {:induction false} LastThree(log: CallLog) returns (a: string, b: string, c: string)
    requires AllDifferent(log) && log.used >= 3
    ensures 3 <= |log.recent| <= WINDOW && log.recent[|log.recent| - 3..] == [a, b, c] && |a| < |b| < |c| <= log.used
  {
    a, b, c := log.calls[log.used - 3], log.calls[log.used - 2], log.calls[log.used - 1];
  }

  /** Three different calls, then the first two of them again. */
  lemma {:induction false} RepeatTwo(log: CallLog, a: string, b: string, c: string, log1: CallLog, log2: CallLog)
    requires 3 <= |log.recent| <= WINDOW && log.recent[|log.recent| - 3..] == [a, b, c]
    requires log1 == Logged(NamedCalls(), log, ToolCall(a, "")) && log2 == Logged(NamedCalls(), log1, ToolCall(b, ""))
    ensures Repeats(log1.recent) && Repeats(log2.recent) && log2.recent == [b, c, a, b]
    ensures log2.used == log1.used + 1 == log.used + 2 && log2.unique.Keys == log.unique.Keys + {a, b}
    ensures |log2.unique| >= |log1.unique| >= |log.unique|
  {
    WindowsOfRepeats(log.recent, a, b, c);
    LogAgain(log, a, log1);
    LogAgain(log1, b, log2);
  }

  lemma {:induction false} RepeatsRecover(log: CallLog, a: string, b: string, c: string, log2: CallLog)
    requires AllDifferent(log) && log.used >= 3 && |a| < |b| < |c| <= log.used && log2.recent == [b, c, a, b]
    requires log2.used == log.used + 2 && log2.unique.Keys == log.unique.Keys + {a, b} && |log2.unique| >= log.used
    ensures Recovering(log2)
  {
    ThreeDiffer(a, b, c);
    assert log2.recent[1..] == [c, a, b];
  }

  lemma {:induction false} EscalateRepeats(ls: Loop) returns (ls': Loop)
    requires Repeats(ls.log.recent) && !Nudges(ls) && !BudgetExhausted(ls)
    ensures ls' == Failure(ls, "execute") && HasToolFailure(ls'.failures) &&
            Moves(NamedCalls(), Execute, ls, Reflect, ls')
  {
    ls' := Failure(ls, "execute");
    assert Step(NamedCalls(), Execute, ls, CallFailed, true) == Result(ls', Moved(Reflect));
    FailureAppend(ls.failures, "execute");
  }

  /** A repetition that is nudged, and then noticed once more, is a failure without a call. */
  lemma {:induction false} FailByRepeating(ls: Loop, n: nat) returns (ls': Loop)
    requires AllDifferent(ls.log) && ls.failures == [] && ls.loopBreakAttempted == 0
    requires 3 <= ls.log.used && ls.log.used + 2 < ls.caps.toolBudget
    ensures Recovering(ls'.log) && ls'.log.used == ls.log.used + 2 && HasToolFailure(ls'.failures) &&
            ls'.caps == ls.caps
    ensures ls'.reflectionsUsed == ls.reflectionsUsed && ls'.replansUsed == ls.replansUsed
    ensures CanTake(NamedCalls(), Reflect, ls', n) ==> CanTake(NamedCalls(), Execute, ls, n + 3)
  {
    var a, b, c := LastThree(ls.log);
    DifferentNotTrapped(ls);
    var ls1 := CallAs(ls, a);
    RepeatTwo(ls.log, a, b, c, ls1.log, Logged(NamedCalls(), ls1.log, ToolCall(b, "")));
    assert Nudges(ls1);
    var ls2 := CallAs(ls1, b);
    RepeatsRecover(ls.log, a, b, c, ls2.log);
    ls' := EscalateRepeats(ls2);
    if CanTake(NamedCalls(), Reflect, ls', n) {
      Chain(NamedCalls(), Execute, ls1, Execute, ls2, Reflect, ls', n);
      OneMore(NamedCalls(), Execute, ls, Execute, ls1, n + 3);
    }
  }

  lemma {:induction false} LastCallsRepeat(ls: Loop, r: nat, p: nat)
    requires AllDifferent(ls.log) && ls.failures == [] && ls.loopBreakAttempted == 0 && ls.log.used >= 3
    requires r > 0 && ls.reflectionsUsed == 0 && ls.replansUsed == 0 && ls.caps.maxReflections == p + r &&
             ls.caps.maxReplans == p
    requires ls.log.used + 3 + r == ls.caps.toolBudget
    ensures CanTake(NamedCalls(), Execute, ls, 3 * r + 4 * p + 4)
  {
    var ls' := FailByRepeating(ls, 3 * r + 4 * p + 1);
    ToolReflections(ls', r, p, 3 * r + 4 * p + 1);
  }

  /** All calls but the last two succeed with different names; r reflections run a tool. */
  lemma {:induction false} LongRepetition(ls: Loop, r: nat, n: nat)
    requires AllDifferent(ls.log) && ls.failures == [] &&
             ls.loopBreakAttempted == ls.reflectionsUsed == ls.replansUsed == 0
    requires r > 0 && ls.caps.maxReflections == ls.caps.maxReplans + r
    requires ls.log.used + 3 + r <= ls.caps.toolBudget && ls.caps.toolBudget >= r + 6
    requires n == ls.caps.toolBudget - ls.log.used + 2 * r + 4 * ls.caps.maxReplans + 1
    ensures CanTake(NamedCalls(), Execute, ls, n)
    decreases n
  {
    if ls.log.used + 3 + r < ls.caps.toolBudget {
      var ls' := CallDifferently(ls, true, n);
      LongRepetition(ls', r, n - 1);
    } else {
      LastCallsRepeat(ls, r, ls.caps.maxReplans);
    }
  }

  /** No run takes more transitions. */
  lemma {:induction false} WorstCaseBounds(env: Env, caps: Caps, n: nat)
    requires caps.toolBudget > 0 && caps.maxReflections > 0 && CanTake(env, Assess, NewLoop(caps), n)
    ensures n <= WorstCase(caps)
  {
    FreshPotential(caps);
    var run: seq<Config> :| |run| == n + 1 && run[0] == Config(Assess, NewLoop(caps)) && run[n].s == Done &&
      IsRun(env, run);
    NoLongerRun(env, run, n);
  }

  /** Some run takes exactly that many: with as many replans as reflections for a budget of two
      calls or more, with fewer for one of six more than the reflections without a replan. */
  lemma {:induction false} WorstCaseAttained(caps: Caps)
    requires caps.maxReflections > 0
    requires if caps.maxReflections <= caps.maxReplans then caps.toolBudget >= 2
             else caps.toolBudget >= caps.maxReflections - caps.maxReplans + 6
    ensures exists env :: CanTake(env, Assess, NewLoop(caps), WorstCase(caps))
  {
    if caps.maxReflections <= caps.maxReplans {
      LongExecution(Planned(caps), WorstCase(caps) - 2);
    } else {
      LongRepetition(Planned(caps), caps.maxReflections - caps.maxReplans, WorstCase(caps) - 2);
    }
    PlanFirst(caps, WorstCase(caps));
  }

  /** The state of a fresh run after its first two thoughts. */
  function Planned(caps: Caps): Loop {
    var th := Says(FinalAnswer, None).thought;
    NewLoop(caps).(thoughts := [th, th])
  }

  lemma {:induction false} PlanFirst(caps: Caps, n: nat)
    requires n > 1 && CanTake(NamedCalls(), Execute, Planned(caps), n - 2)
    ensures CanTake(NamedCalls(), Assess, NewLoop(caps), n)
  {
    var any := Says(FinalAnswer, None);
    var ls1 := NewLoop(caps).(thoughts := [any.thought]);
    assert Step(NamedCalls(), Assess, NewLoop(caps), any, true) == Result(ls1, Moved(Plan));
    assert Step(NamedCalls(), Plan, ls1, any, true) == Result(Planned(caps), Moved(Execute));
    Chain(NamedCalls(), Assess, NewLoop(caps), Plan, ls1, Execute, Planned(caps), n - 2);
  }
}
