/** The thinking loop as it runs: the mutable loop state, the step methods that change it in
    place, and the driver with its parse-failure recovery (internal/agent/thinking.go). */
module ThinkingDriver {
  import opened Base
  import opened Thinking

  class LoopState {
    const caps: Caps
    var thoughts: seq<Thought>
    var currentPlan: seq<string>
    var toolCallsUsed: nat
    var recentCallHashes: seq<string>
    var uniqueCallHashes: map<string, nat>
    var searchesUsed: nat
    var failureHistory: seq<string>
    var reflectionsUsed: nat
    var replansUsed: nat
    var finalContent: Content
    var loopBreakAttempted: nat
    ghost var calls: seq<string>

    ghost function Log(): CallLog
      reads this
    {
      CallLog(toolCallsUsed, recentCallHashes, uniqueCallHashes, searchesUsed, calls)
    }

    ghost function View(): Loop
      reads this
    {
      Loop(caps, Log(), thoughts, currentPlan, failureHistory, reflectionsUsed, replansUsed, finalContent,
        loopBreakAttempted)
    }

    constructor (caps: Caps)
      ensures View() == NewLoop(caps) && this.caps == caps
    {
      this.caps := caps;
      thoughts, currentPlan, toolCallsUsed := [], [], 0;
      recentCallHashes, uniqueCallHashes, searchesUsed := [], map[], 0;
      failureHistory, reflectionsUsed, replansUsed := [], 0, 0;
      finalContent, loopBreakAttempted := NoContent, 0;
      calls := [];
    }

    method RecordToolCall(env: Env, call: ToolCall)
      modifies `toolCallsUsed, `uniqueCallHashes, `recentCallHashes, `searchesUsed, `calls
      ensures Log() == Logged(env, old(Log()), call)
    {
      toolCallsUsed := toolCallsUsed + 1;
      var h := env.hash(call);
      uniqueCallHashes := uniqueCallHashes[h := (if h in uniqueCallHashes then uniqueCallHashes[h] else 0) + 1];
      recentCallHashes := recentCallHashes + [h];
      if |recentCallHashes| > WINDOW {
        recentCallHashes := recentCallHashes[|recentCallHashes| - WINDOW..];
      }
      assert recentCallHashes == LastFour(old(recentCallHashes) + [h]);
      searchesUsed := searchesUsed + if env.isSearch(call) then 1 else 0;
      calls := calls + [h];
    }

    method IsLooping() returns (looping: bool)
      ensures looping == Repeats(recentCallHashes)
    {
      var counts: map<string, nat> := map[];
      for i := 0 to |recentCallHashes|
        invariant forall x :: x in counts <==> x in recentCallHashes[..i]
        invariant forall x | x in counts :: counts[x] == 1
        invariant !Repeats(recentCallHashes[..i])
      {
        var h := recentCallHashes[i];
        counts := counts[h := (if h in counts then counts[h] else 0) + 1];
        if counts[h] >= 2 {
          var j :| 0 <= j < i && recentCallHashes[..i][j] == h;
          assert SameAt(recentCallHashes, j, i);
          return true;
        }
        ghost var seen := recentCallHashes[..i + 1];
        forall j, k | 0 <= j < k <= i ensures !SameAt(seen, j, k) {
          assert if k < i then !SameAt(recentCallHashes[..i], j, k) else recentCallHashes[..i][j] in counts;
        }
      }
      assert recentCallHashes[..|recentCallHashes|] == recentCallHashes;
      return false;
    }

    method HasToolExecutionFailure() returns (failed: bool)
      ensures failed == HasToolFailure(failureHistory)
    {
      for i := 0 to |failureHistory|
        invariant forall k | 0 <= k < i :: !FailureAt(failureHistory, k)
      {
        if FailureAt(failureHistory, i) {
          return true;
        }
      }
      return false;
    }

    method RunToolCall(env: Env, call: ToolCall, ok: bool) returns (outcome: Outcome)
      modifies this
      ensures Result(View(), outcome) == RunTool(env, old(View()), call, ok)
    {
      RecordToolCall(env, call);
      if ok {
        return Moved(Execute);
      }
      failureHistory := failureHistory + [call.name];
      return Moved(Reflect);
    }

    method DoAssess(env: Env, reply: Reply) returns (outcome: Outcome)
      modifies this
      ensures Result(View(), outcome) == AssessStep(env, old(View()), reply)
    {
      match reply {
        case CallFailed => return CallError;
        case Unparsable => return ParseError;
        case Parsed(th) =>
          thoughts := thoughts + [th];
          if !env.isComplex(failureHistory) && th.confidence >= env.threshold &&
            th.action.kind in {CallTool, FinalAnswer} {
            if |th.plan| > 0 {
              currentPlan := CapPlan(th.plan);
            }
            return Moved(Execute);
          }
          return Moved(Plan);
      }
    }

    method DoPlan(reply: Reply) returns (outcome: Outcome)
      modifies this
      ensures Result(View(), outcome) == PlanStep(old(View()), reply)
    {
      match reply {
        case CallFailed => return CallError;
        case Unparsable => return ParseError;
        case Parsed(th) =>
          thoughts := thoughts + [th];
          currentPlan := CapPlan(th.plan);
          return Moved(Execute);
      }
    }

    /** Spends the one nudge on a repetition, or records what sends the run to Reflect. */
    method PreFlight() returns (escalated: bool)
      modifies `loopBreakAttempted, `failureHistory
      ensures escalated <==> Trapped(old(View())) && !Nudges(old(View()))
      ensures escalated ==> View() == Failure(old(View()), "execute")
      ensures !escalated ==>
                View() == old(View()).(loopBreakAttempted := old(loopBreakAttempted) + if Nudges(old(View())) then 1
                  else 0)
    {
      var looping := IsLooping();
      var failed := HasToolExecutionFailure();
      var near := toolCallsUsed > 0 && 4 * toolCallsUsed >= 3 * caps.toolBudget &&
        2 * |uniqueCallHashes| < toolCallsUsed;
      if looping && loopBreakAttempted == 0 && !failed && !near {
        loopBreakAttempted := loopBreakAttempted + 1;
      } else if looping || near {
        failureHistory := failureHistory + ["execute"];
        return true;
      }
      return false;
    }

    method DoExecute(env: Env, reply: Reply, ok: bool) returns (outcome: Outcome)
      modifies this
      ensures Result(View(), outcome) == ExecuteStep(env, old(View()), reply, ok)
    {
      if toolCallsUsed >= caps.toolBudget {
        finalContent := BudgetGone;
        return Moved(Done);
      }
      var escalated := PreFlight();
      if escalated {
        return Moved(Reflect);
      }
      outcome := TakeTurn(env, reply, ok);
    }

    method TakeTurn(env: Env, reply: Reply, ok: bool) returns (outcome: Outcome)
      modifies this
      ensures Result(View(), outcome) == ExecuteTurn(env, old(View()), reply, ok)
    {
      match reply {
        case CallFailed => return CallError;
        case Unparsable => return ParseError;
        case Parsed(th) =>
          thoughts := thoughts + [th];
          match th.action.kind {
            case FinalAnswer =>
              finalContent := Given(th.action.finalAnswer);
              return Moved(Verify);
            case Replan =>
              if th.rootCause != "" {
                failureHistory := failureHistory + ["replan"];
              }
              return Moved(Reflect);
            case NeedInfo =>
              finalContent := Clarification(th.action.question);
              return Moved(Done);
            case CallTool =>
              if th.action.toolCall.None? {
                failureHistory := failureHistory + [""];
                return Moved(Reflect);
              }
              outcome := RunToolCall(env, th.action.toolCall.value, ok);
            case OtherKind =>
              failureHistory := failureHistory + ["unknown"];
              return Moved(Reflect);
          }
      }
    }

    method DoVerify() returns (outcome: Outcome)
      modifies this
      ensures Result(View(), outcome) == VerifyStep(old(View()))
    {
      if |thoughts| == 0 || |thoughts[|thoughts| - 1].evidence| > 0 || toolCallsUsed == 0 {
        return Moved(Done);
      }
      var failed := HasToolExecutionFailure();
      if !failed {
        return Moved(Done);
      }
      failureHistory := failureHistory + ["verify"];
      return Moved(Reflect);
    }

    method DoReflect(env: Env, reply: Reply, ok: bool) returns (outcome: Outcome)
      modifies this
      ensures Result(View(), outcome) == ReflectStep(env, old(View()), reply, ok)
    {
      if reflectionsUsed >= caps.maxReflections {
        finalContent := CapsReached;
        return Moved(Done);
      }
      match reply {
        case CallFailed => return CallError;
        case Unparsable => return ParseError;
        case Parsed(th) =>
          thoughts := thoughts + [th];
          reflectionsUsed := reflectionsUsed + 1;
          match th.action.kind {
            case CallTool =>
              if th.action.toolCall.None? {
                failureHistory := failureHistory + [""];
                return Moved(Done);
              }
              outcome := RunToolCall(env, th.action.toolCall.value, ok);
            case FinalAnswer =>
              finalContent := Given(th.action.finalAnswer);
              return Moved(Done);
            case Replan =>
              if replansUsed >= caps.maxReplans {
                finalContent := CapsReached;
                return Moved(Done);
              }
              replansUsed := replansUsed + 1;
              if |th.plan| > 0 {
                currentPlan := CapPlan(th.plan);
              }
              return Moved(Plan);
            case _ =>
              if replansUsed < caps.maxReplans {
                replansUsed := replansUsed + 1;
                return Moved(Plan);
              }
              finalContent := CapsReached;
              return Moved(Done);
          }
      }
    }

    /** One iteration of the driver's switch. */
    method Dispatch(env: Env, s: State, reply: Reply, ok: bool) returns (outcome: Outcome)
      requires s != Done
      modifies this
      ensures Result(View(), outcome) == Step(env, s, old(View()), reply, ok)
    {
      match s {
        case Assess => outcome := DoAssess(env, reply);
        case Plan => outcome := DoPlan(reply);
        case Execute => outcome := DoExecute(env, reply, ok);
        case Verify => outcome := DoVerify();
        case Reflect => outcome := DoReflect(env, reply, ok);
      }
    }

    /** Takes the plain-prose answer as the result. */
    method Conclude(text: string)
      modifies `finalContent
      ensures finalContent == Given(text)
    {
      finalContent := Given(text);
    }
  }

  /** exhausted: the report says the loop ran out of transitions. */
  datatype TaskResult = TaskResult(content: Content, exhausted: bool, toolCallsMade: nat, iterations: nat, failed: bool)

  /** What is reported of a run that stopped here. */
  function Report(d: Drive): TaskResult {
    TaskResult(d.ls.finalContent, !d.failed && IsEmpty(d.ls.finalContent), d.ls.log.used, |d.ls.thoughts|, d.failed)
  }

  predicate IsEmpty(content: Content) {
    content == NoContent || content == Given("")
  }

  const DEFAULT_CAPS := Caps(25, 3, 2)
  const TRANSITION_FLOOR := 50

  function MaxThoughtTransitions(maxIterations: int, maxContinuations: int): (n: nat)
    ensures n >= TRANSITION_FLOOR
  {
    var n := maxIterations * (1 + maxContinuations);
    if n < TRANSITION_FLOOR then TRANSITION_FLOOR else n
  }

  /** Where the driver is between two iterations. */
  datatype Drive = Drive(s: State, ls: Loop, parseNudges: nat, fallbackUsed: bool, failed: bool)

  predicate Over(d: Drive) {
    d.s == Done || d.failed
  }

  predicate IsProse(narrative: Option<string>) {
    narrative.Some? && TrimSpace(narrative.value) != ""
  }

  /** What a step's result makes of the driver: a third parse failure in a row ends the run,
      with the plain-prose answer if there is one. */
  function Driven(d: Drive, r: Result, narrative: Option<string>): Drive {
    match r.outcome
    case Moved(next) => Drive(next, r.ls, 0, d.fallbackUsed, false)
    case CallError => d.(ls := r.ls, failed := true)
    case ParseError =>
      if d.parseNudges < MAX_PARSE_NUDGES then d.(ls := r.ls, parseNudges := d.parseNudges + 1)
      else if !d.fallbackUsed && IsProse(narrative) then
        d.(s := Done, ls := r.ls.(finalContent := Given(TrimSpace(narrative.value))), fallbackUsed := true)
      else d.(ls := r.ls, failed := true)
  }

  function Iterated(env: Env, d: Drive, reply: Reply, ok: bool, narrative: Option<string>): Drive {
    Driven(d, Step(env, d.s, d.ls, reply, ok), narrative)
  }

  function FirstDrive(caps: Caps): Drive {
    Drive(Assess, NewLoop(caps), 0, false, false)
  }

  /** The k-th iteration of the trail is one that the driver makes. */
  ghost predicate IteratesAt(env: Env, model: nat -> Reply, tools: nat -> bool, narrative: Option<string>,
                             trail: seq<Drive>, k: nat)
    requires k + 1 < |trail|
  {
    !Over(trail[k]) && trail[k + 1] == Iterated(env, trail[k], model(k), tools(k), narrative)
  }

  /** The states of the driver before the first, between, and after its iterations. */
  ghost predicate IsTrail(env: Env, caps: Caps, model: nat -> Reply, tools: nat -> bool, narrative: Option<string>,
                          trail: seq<Drive>) {
    && trail != [] && trail[0] == FirstDrive(caps)
    && forall k {:trigger IteratesAt(env, model, tools, narrative, trail, k)} | 0 <= k < |trail| - 1 ::
         IteratesAt(env, model, tools, narrative, trail, k)
  }

  lemma {:induction false} AddIteration(env: Env, caps: Caps, model: nat -> Reply, tools: nat -> bool,
                                        narrative: Option<string>,
                                        trail: seq<Drive>, d: Drive, d': Drive)
    requires IsTrail(env, caps, model, tools, narrative, trail) && d == trail[|trail| - 1] && !Over(d)
    requires d' == Iterated(env, d, model(|trail| - 1), tools(|trail| - 1), narrative)
    ensures IsTrail(env, caps, model, tools, narrative, trail + [d'])
  {
    forall k | 0 <= k < |trail| ensures IteratesAt(env, model, tools, narrative, trail + [d'], k) {
      assert k < |trail| - 1 ==> IteratesAt(env, model, tools, narrative, trail, k);
    }
  }

  /** The k-th iteration's reply could not be parsed. */
  predicate UnparsedAt(env: Env, d: Drive, reply: Reply, ok: bool) {
    Step(env, d.s, d.ls, reply, ok).outcome == ParseError
  }

  function Unparsed(env: Env, model: nat -> Reply, tools: nat -> bool, trail: seq<Drive>): nat {
    var n := |trail| - 1;
    if n <= 0 then 0
    else Unparsed(env, model, tools, trail[..n]) + if UnparsedAt(env, trail[n - 1], model(n - 1), tools(n - 1)) then 1
    else 0
  }

  /** The answers determine the states: two trails agree as long as both last. */
  lemma {:induction false} TrailsAgree(env: Env, caps: Caps, model: nat -> Reply, tools: nat -> bool,
                                       narrative: Option<string>,
                                       a: seq<Drive>, b: seq<Drive>, k: nat)
    requires IsTrail(env, caps, model, tools, narrative, a) && IsTrail(env, caps, model, tools, narrative, b)
    requires k < |a| && k < |b|
    ensures a[k] == b[k]
  {
    if k > 0 {
      TrailsAgree(env, caps, model, tools, narrative, a, b, k - 1);
      assert IteratesAt(env, model, tools, narrative, a, k - 1) && IteratesAt(env, model, tools, narrative, b, k - 1);
    }
  }

  // ---- How long a run can be ----

  /** What n iterations, of which some failed to parse, leave: every other one used up some of
      the worst case, and no three failures to parse come in a row. */
  ghost predicate Accounted(caps: Caps, d: Drive, n: nat, unparsed: nat) {
    && Inv(d.ls) && d.ls.caps == caps && unparsed <= n
    && var moves, worst := n - unparsed, WorstCase(caps);
    && moves <= worst && n <= 3 * worst && (!d.failed ==> Potential(d.s, d.ls) + moves <= worst)
    && (!Over(d) ==> moves < worst && unparsed <= 2 * moves + d.parseNudges && d.parseNudges <= MAX_PARSE_NUDGES)
  }

  lemma {:induction false} SomethingLeft(s: State, ls: Loop)
    requires s != Done
    ensures Potential(s, ls) > 0
  {
  }

  lemma {:induction false} IterationAccounted(env: Env, caps: Caps, d: Drive, reply: Reply, ok: bool,
                                              narrative: Option<string>,
                                              n: nat, unparsed: nat)
    requires Accounted(caps, d, n, unparsed) && !Over(d)
    ensures Accounted(caps, Iterated(env, d, reply, ok, narrative), n + 1, unparsed +
            if UnparsedAt(env, d, reply, ok) then 1 else 0)
  {
    var r := Step(env, d.s, d.ls, reply, ok);
    StepKeepsInv(env, d.s, d.ls, reply, ok);
    TransitionProgress(env, d.s, d.ls, reply, ok);
    if r.outcome == ParseError {
      ParseErrorKeepsPotential(env, d.s, d.ls, reply, ok);
    }
    DrivenAccounted(caps, d, r, narrative, n, unparsed);
  }

  lemma {:induction false} DrivenAccounted(caps: Caps, d: Drive, r: Result, narrative: Option<string>, n: nat,
                                           unparsed: nat)
    requires Accounted(caps, d, n, unparsed) && !Over(d) && Inv(r.ls) && r.ls.caps == caps &&
             Spends(r, Potential(d.s, d.ls))
    requires r.outcome == ParseError ==> Potential(d.s, r.ls) == Potential(d.s, d.ls)
    ensures Accounted(caps, Driven(d, r, narrative), n + 1, unparsed + if r.outcome == ParseError then 1 else 0)
  {
    var d' := Driven(d, r, narrative);
    SomethingLeft(d.s, d.ls);
    KeepsInv(d, r, narrative);
    if !Over(d') {
      SomethingLeft(d'.s, d'.ls);
    }
  }

  lemma {:induction false} KeepsInv(d: Drive, r: Result, narrative: Option<string>)
    requires Inv(r.ls)
    ensures Inv(Driven(d, r, narrative).ls) && Driven(d, r, narrative).ls.caps == r.ls.caps
  {
    var ls' := Driven(d, r, narrative).ls;
    assert ls'.log == r.ls.log && CountersInv(ls');
  }

  lemma {:induction false} FirstAccounted(caps: Caps)
    requires caps.toolBudget > 0 && caps.maxReflections > 0
    ensures Accounted(caps, FirstDrive(caps), 0, 0)
  {
    NewLoopInv(caps);
    FreshPotential(caps);
  }

  lemma {:induction false} TrailAccounted(env: Env, caps: Caps, model: nat -> Reply, tools: nat -> bool,
                                          narrative: Option<string>,
                                          trail: seq<Drive>, n: nat)
    requires caps.toolBudget > 0 && caps.maxReflections > 0
    requires IsTrail(env, caps, model, tools, narrative, trail) && |trail| == n + 1
    ensures Accounted(caps, trail[n], n, Unparsed(env, model, tools, trail))
    decreases n
  {
    if n == 0 {
      FirstAccounted(caps);
    } else {
      var front, d, u := trail[..n], trail[n - 1], Unparsed(env, model, tools, trail[..n]);
      assert front[n - 1] == d;
      FrontIsTrail(env, caps, model, tools, narrative, trail, front);
      TrailAccounted(env, caps, model, tools, narrative, front, n - 1);
      assert IteratesAt(env, model, tools, narrative, trail, n - 1);
      IterationAccounted(env, caps, d, model(n - 1), tools(n - 1), narrative, n - 1, u);
    }
  }

  lemma {:induction false} FrontIsTrail(env: Env, caps: Caps, model: nat -> Reply, tools: nat -> bool,
                                        narrative: Option<string>,
                                        trail: seq<Drive>, front: seq<Drive>)
    requires IsTrail(env, caps, model, tools, narrative, trail) && front != [] && front <= trail
    ensures IsTrail(env, caps, model, tools, narrative, front)
  {
    forall k | 0 <= k < |front| - 1 ensures IteratesAt(env, model, tools, narrative, front, k) {
      assert IteratesAt(env, model, tools, narrative, trail, k);
    }
  }

  /** Every run, whatever model and tools answer: at most the worst case without parse
      failures, at most three times that with them, and less while it is not over; every state
      on its way keeps the invariant. */
  lemma {:induction false} TrailIsBounded(env: Env, caps: Caps, model: nat -> Reply, tools: nat -> bool,
                                          narrative: Option<string>,
                                          trail: seq<Drive>)
    requires caps.toolBudget > 0 && caps.maxReflections > 0
    requires IsTrail(env, caps, model, tools, narrative, trail)
    ensures var n, d, smooth := |trail| - 1, trail[|trail| - 1], Unparsed(env, model, tools, trail) == 0;
            && Inv(d.ls) && n <= 3 * WorstCase(caps) && (smooth ==> n <= WorstCase(caps))
            && (!Over(d) ==> n < 3 * WorstCase(caps) && (smooth ==> n < WorstCase(caps)))
  {
    TrailAccounted(env, caps, model, tools, narrative, trail, |trail| - 1);
  }

  // ---- The driver ----

  /** The run that the answers call for: it lasts until it is over or the ceiling is reached. */
  ghost predicate RunsTo(env: Env, caps: Caps, maxTransitions: nat, model: nat -> Reply, tools: nat -> bool,
                         narrative: Option<string>, trail: seq<Drive>, result: TaskResult) {
    && IsTrail(env, caps, model, tools, narrative, trail) && |trail| - 1 <= maxTransitions
    && (Over(trail[|trail| - 1]) || |trail| - 1 == maxTransitions)
    && result == Report(trail[|trail| - 1])
  }

  /** The plain-prose fallback: a text that is not blank ends the run. */
  method ConcludeInProse(ls: LoopState, narrative: Option<string>) returns (concluded: bool)
    modifies ls
    ensures concluded <==> IsProse(narrative)
    ensures ls.View() == if concluded then old(ls.View()).(finalContent := Given(TrimSpace(narrative.value)))
            else old(ls.View())
  {
    concluded := IsProse(narrative);
    if concluded {
      ls.Conclude(TrimSpace(narrative.value));
    }
  }

  /** The driver's switch on the outcome of a step. */
  method Settle(ls: LoopState, ghost d: Drive, s: State, parseNudges: nat, fallbackUsed: bool, outcome: Outcome,
                narrative: Option<string>)
    returns (s': State, parseNudges': nat, fallbackUsed': bool, failed: bool)
    requires d == Drive(s, d.ls, parseNudges, fallbackUsed, false)
    modifies ls
    ensures Drive(s', ls.View(), parseNudges', fallbackUsed', failed) ==
            Driven(d, Result(old(ls.View()), outcome), narrative)
  {
    s', parseNudges', fallbackUsed', failed := s, parseNudges, fallbackUsed, false;
    match outcome {
      case Moved(next) =>
        s', parseNudges' := next, 0;
      case ParseError =>
        if parseNudges < MAX_PARSE_NUDGES {
          parseNudges' := parseNudges + 1;
        } else {
          var concluded := false;
          if !fallbackUsed {
            concluded := ConcludeInProse(ls, narrative);
          }
          if concluded {
            s', fallbackUsed' := Done, true;
          } else {
            failed := true;
          }
        }
      case CallError =>
        failed := true;
    }
  }

  /** The driver, for arbitrary answers: model and tools give what the i-th iteration's model
      call and tool run return, narrative what the one plain-prose fallback call returns. */
  method ExecuteWithThinking(env: Env, caps: Caps, maxTransitions: nat,
                             model: nat -> Reply, tools: nat -> bool, narrative: Option<string>)
    returns (result: TaskResult)
    ensures exists trail :: RunsTo(env, caps, maxTransitions, model, tools, narrative, trail, result)
  {
    var ls := new LoopState(caps);
    var parseNudgesInARow := 0;
    var narrativeFallbackUsed := false;
    var failed := false;
    var s := Assess;
    ghost var d := FirstDrive(caps);
    ghost var trail := [d];
    var iter := 0;
    while iter < maxTransitions && s != Done && !failed
      invariant iter <= maxTransitions && fresh(ls)
      invariant d == Drive(s, ls.View(), parseNudgesInARow, narrativeFallbackUsed, failed)
      invariant IsTrail(env, caps, model, tools, narrative, trail) && |trail| == iter + 1 && trail[iter] == d
    {
      ghost var before := d;
      var outcome := ls.Dispatch(env, s, model(iter), tools(iter));
      s, parseNudgesInARow, narrativeFallbackUsed, failed :=
        Settle(ls, before, s, parseNudgesInARow, narrativeFallbackUsed, outcome, narrative);
      d := Drive(s, ls.View(), parseNudgesInARow, narrativeFallbackUsed, failed);
      AddIteration(env, caps, model, tools, narrative, trail, before, d);
      trail := trail + [d];
      iter := iter + 1;
    }
    result := TaskResult(ls.finalContent, !failed && IsEmpty(ls.finalContent), ls.toolCallsUsed, |ls.thoughts|, failed);
    assert RunsTo(env, caps, maxTransitions, model, tools, narrative, trail, result);
  }

  /** Under the default caps the ceiling never ends a run without parse failures. */
  lemma {:induction false} DefaultsNeverHitCeiling(env: Env, maxIterations: int, maxContinuations: int,
                                                   model: nat -> Reply,
                                                   tools: nat -> bool, narrative: Option<string>, trail: seq<Drive>,
                                                     result: TaskResult)
    requires RunsTo(env, DEFAULT_CAPS, MaxThoughtTransitions(maxIterations, maxContinuations), model, tools, narrative,
             trail, result)
    requires Unparsed(env, model, tools, trail) == 0
    ensures Over(trail[|trail| - 1]) && |trail| - 1 <= 38
  {
    TrailIsBounded(env, DEFAULT_CAPS, model, tools, narrative, trail);
  }
}
