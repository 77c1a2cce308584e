/** What a thinking run did and why it ended, in terms of the replies it was given and of its
    own history (internal/agent/thinking.go). */
module ThinkingOutcome {
  import opened Base
  import opened Thinking
  import opened ThinkingDriver
  import opened ThinkingContent
  import opened ThinkingVerify

  // ---- What leads to which state ----

  /** The step gets a reply that can be parsed. */
  predicate Hears(d: Drive, reply: Reply) {
    (d.s == Assess || d.s == Plan || AsksExecute(d) || AsksReflect(d)) && reply.Parsed?
  }

  predicate HearsKind(d: Drive, reply: Reply, kind: ActionKind) {
    Hears(d, reply) && reply.thought.action.kind == kind
  }

  /** The step runs the tool that the reply names. */
  predicate RunsTool(d: Drive, reply: Reply) {
    (d.s == Execute || d.s == Reflect) && HearsKind(d, reply, CallTool) && reply.thought.action.toolCall.Some?
  }

  /** A task that is not complex, taken with confidence to a tool or an answer. */
  predicate TakesFastPath(env: Env, d: Drive, reply: Reply) {
    && d.s == Assess && !env.isComplex(d.ls.failures)
    && (HearsKind(d, reply, CallTool) || HearsKind(d, reply, FinalAnswer)) && reply.thought.confidence >= env.threshold
  }

  /** Reflect asks for another plan, or for nothing that it can have, while replans are left. */
  predicate PlansAgain(d: Drive, reply: Reply) {
    && d.s == Reflect && Hears(d, reply) && d.ls.replansUsed < d.ls.caps.maxReplans
    && reply.thought.action.kind != CallTool && reply.thought.action.kind != FinalAnswer
  }

  predicate LeadsToExecute(env: Env, d: Drive, reply: Reply, ok: bool) {
    TakesFastPath(env, d, reply) || (d.s == Plan && Hears(d, reply)) || (RunsTool(d, reply) && ok)
  }

  predicate LeadsToReflect(d: Drive, reply: Reply, ok: bool) {
    || Escalates(d) || (RunsTool(d, reply) && !ok) || (d.s == Verify && Rejects(d))
    || (d.s == Execute && (HearsKind(d, reply, Replan) || HearsKind(d, reply, OtherKind) || MissesTool(d, reply)))
  }

  predicate MissesTool(d: Drive, reply: Reply) {
    HearsKind(d, reply, CallTool) && reply.thought.action.toolCall.None?
  }

  predicate Rejects(d: Drive) {
    && d.ls.thoughts != [] && d.ls.thoughts[|d.ls.thoughts| - 1].evidence == [] && d.ls.log.used > 0
    && HasToolFailure(d.ls.failures)
  }

  predicate IsState(r: Result, s: State) {
    r.outcome == Moved(s)
  }

  lemma {:induction false} ExecuteMoves(env: Env, d: Drive, reply: Reply, ok: bool)
    requires d.s == Execute
    ensures var r := ExecuteStep(env, d.ls, reply, ok);
            && !IsState(r, Assess) && !IsState(r, Plan)
            && (IsState(r, Execute) <==> LeadsToExecute(env, d, reply, ok))
            && (IsState(r, Verify) <==> HearsKind(d, reply, FinalAnswer))
            && (IsState(r, Reflect) <==> LeadsToReflect(d, reply, ok))
  {
  }

  lemma {:induction false} ReflectMoves(env: Env, d: Drive, reply: Reply, ok: bool)
    requires d.s == Reflect
    ensures var r := ReflectStep(env, d.ls, reply, ok);
            && !IsState(r, Assess) && !IsState(r, Verify)
            && (IsState(r, Plan) <==> PlansAgain(d, reply))
            && (IsState(r, Execute) <==> LeadsToExecute(env, d, reply, ok))
            && (IsState(r, Reflect) <==> LeadsToReflect(d, reply, ok))
  {
  }

  /** For each state what exactly brings a step there; Assess is never entered again, and the
      rest ends the run or leaves it where it is. */
  lemma {:induction false} WhatLeadsWhere(env: Env, d: Drive, reply: Reply, ok: bool)
    requires d.s != Done
    ensures var r := Step(env, d.s, d.ls, reply, ok);
            && !IsState(r, Assess)
            && (IsState(r, Plan) <==>
                (d.s == Assess && Hears(d, reply) && !TakesFastPath(env, d, reply)) || PlansAgain(d, reply))
            && (IsState(r, Execute) <==> LeadsToExecute(env, d, reply, ok))
            && (IsState(r, Verify) <==> d.s == Execute && HearsKind(d, reply, FinalAnswer))
            && (IsState(r, Reflect) <==> LeadsToReflect(d, reply, ok))
  {
    match d.s {
      case Execute => ExecuteMoves(env, d, reply, ok);
      case Reflect => ReflectMoves(env, d, reply, ok);
      case _ =>
    }
  }

  // ---- What a run has used up ----

  /** The calls run, the replies heard, and the reflections and replans among them. */
  datatype Totals = Totals(calls: seq<ToolCall>, heard: nat, reflections: nat, replans: nat)

  function Add(t: Totals, d: Drive, reply: Reply): Totals {
    Totals(
      if RunsTool(d, reply) then t.calls + [reply.thought.action.toolCall.value] else t.calls,
      t.heard + (if Hears(d, reply) then 1 else 0),
      t.reflections + (if d.s == Reflect && Hears(d, reply) then 1 else 0),
      t.replans + (if PlansAgain(d, reply) then 1 else 0))
  }

  /** What the first n iterations amount to. */
  function TotalsOf(model: nat -> Reply, trail: seq<Drive>, n: nat): Totals
    requires n <= |trail|
  {
    if n == 0 then Totals([], 0, 0, 0) else Add(TotalsOf(model, trail, n - 1), trail[n - 1], model(n - 1))
  }

  function Hashes(env: Env, calls: seq<ToolCall>): seq<string> {
    seq(|calls|, i requires 0 <= i < |calls| => env.hash(calls[i]))
  }

  /** The loop state's counters and call history are those totals. */
  ghost predicate Agrees(env: Env, ls: Loop, t: Totals) {
    && ls.log.calls == Hashes(env, t.calls) && ls.log.used == |t.calls| && |ls.thoughts| == t.heard
    && ls.reflectionsUsed == t.reflections && ls.replansUsed == t.replans
  }

  lemma {:induction false} OneMoreCall(env: Env, calls: seq<ToolCall>, call: ToolCall)
    ensures Hashes(env, calls + [call]) == Hashes(env, calls) + [env.hash(call)]
  {
  }

  lemma {:induction false} ExecuteAgrees(env: Env, d: Drive, reply: Reply, ok: bool, t: Totals)
    requires d.s == Execute && Agrees(env, d.ls, t)
    ensures Agrees(env, ExecuteStep(env, d.ls, reply, ok).ls, Add(t, d, reply))
  {
    if reply.Parsed? && reply.thought.action.toolCall.Some? {
      OneMoreCall(env, t.calls, reply.thought.action.toolCall.value);
    }
  }

  lemma {:induction false} ReflectAgrees(env: Env, d: Drive, reply: Reply, ok: bool, t: Totals)
    requires d.s == Reflect && Agrees(env, d.ls, t)
    ensures Agrees(env, ReflectStep(env, d.ls, reply, ok).ls, Add(t, d, reply))
  {
    if reply.Parsed? && reply.thought.action.toolCall.Some? {
      OneMoreCall(env, t.calls, reply.thought.action.toolCall.value);
    }
  }

  /** The driver changes nothing in the loop state but its content. */
  lemma {:induction false} DriverKeeps(d: Drive, r: Result, narrative: Option<string>)
    ensures Driven(d, r, narrative).ls == r.ls.(finalContent := Driven(d, r, narrative).ls.finalContent)
  {
  }

  lemma {:induction false} StepAgrees(env: Env, d: Drive, reply: Reply, ok: bool, narrative: Option<string>, t: Totals)
    requires d.s != Done && Agrees(env, d.ls, t)
    ensures Agrees(env, Iterated(env, d, reply, ok, narrative).ls, Add(t, d, reply))
  {
    DriverKeeps(d, Step(env, d.s, d.ls, reply, ok), narrative);
    match d.s {
      case Execute => ExecuteAgrees(env, d, reply, ok, t);
      case Reflect => ReflectAgrees(env, d, reply, ok, t);
      case _ =>
    }
  }

  /** In every run the counters count what happened: the tool calls run, the replies heard, and
      how many of them were reflections and replans; the call history lists those calls. */
  lemma {:induction false} CountersCount(env: Env, caps: Caps, model: nat -> Reply, tools: nat -> bool,
                                         narrative: Option<string>, trail: seq<Drive>, n: nat)
    requires IsTrail(env, caps, model, tools, narrative, trail) && n < |trail|
    ensures Agrees(env, trail[n].ls, TotalsOf(model, trail, n)) && trail[n].ls.caps == caps
  {
    if n > 0 {
      CountersCount(env, caps, model, tools, narrative, trail, n - 1);
      assert IteratesAt(env, model, tools, narrative, trail, n - 1);
      StepAgrees(env, trail[n - 1], model(n - 1), tools(n - 1), narrative, TotalsOf(model, trail, n - 1));
      CapsStay(env, trail[n - 1], model(n - 1), tools(n - 1), narrative);
    }
  }

  lemma {:induction false} CapsStay(env: Env, d: Drive, reply: Reply, ok: bool, narrative: Option<string>)
    ensures Iterated(env, d, reply, ok, narrative).ls.caps == d.ls.caps
  {
    DriverKeeps(d, Step(env, d.s, d.ls, reply, ok), narrative);
  }

  // ---- Ends without an answer ----

  predicate HearsQuestion(d: Drive, reply: Reply, q: string) {
    d.s == Execute && HearsKind(d, reply, NeedInfo) && reply.thought.action.question == q
  }

  predicate LacksBudget(d: Drive) {
    d.s == Execute && d.ls.log.used >= d.ls.caps.toolBudget
  }

  predicate LacksCaps(d: Drive, reply: Reply) {
    && d.s == Reflect
    && (d.ls.reflectionsUsed >= d.ls.caps.maxReflections ||
        (Hears(d, reply) && d.ls.replansUsed >= d.ls.caps.maxReplans &&
         reply.thought.action.kind != CallTool && reply.thought.action.kind != FinalAnswer))
  }

  /** The last iteration was an Execute that heard a request for information with this question. */
  predicate EndsInQuestion(model: nat -> Reply, trail: seq<Drive>, q: string) {
    var n := |trail| - 2;
    n >= 0 && HearsQuestion(trail[n], model(n), q)
  }

  /** The last iteration entered Execute after as many tool calls as the budget has. */
  predicate EndsWithoutBudget(caps: Caps, model: nat -> Reply, trail: seq<Drive>) {
    var n := |trail| - 2;
    n >= 0 && trail[n].s == Execute && |TotalsOf(model, trail, n).calls| >= caps.toolBudget
  }

  /** The last iteration entered Reflect after as many reflections as the cap allows, or heard
      there what calls for a replan after as many of those. */
  predicate EndsWithoutCaps(caps: Caps, model: nat -> Reply, trail: seq<Drive>) {
    var n := |trail| - 2;
    && n >= 0 && trail[n].s == Reflect
    && (TotalsOf(model, trail, n).reflections >= caps.maxReflections ||
        (Hears(trail[n], model(n)) && TotalsOf(model, trail, n).replans >= caps.maxReplans &&
         model(n).thought.action.kind != CallTool && model(n).thought.action.kind != FinalAnswer))
  }

  lemma {:induction false} ExecuteContent(env: Env, d: Drive, reply: Reply, ok: bool, q: string)
    requires d.s == Execute && (d.ls.finalContent == NoContent || d.ls.finalContent.Given?)
    ensures var content := ExecuteStep(env, d.ls, reply, ok).ls.finalContent;
            && (content == Clarification(q) <==> HearsQuestion(d, reply, q))
            && (content == BudgetGone <==> LacksBudget(d)) && content != CapsReached
  {
  }

  lemma {:induction false} ReflectContent(env: Env, d: Drive, reply: Reply, ok: bool)
    requires d.s == Reflect && (d.ls.finalContent == NoContent || d.ls.finalContent.Given?)
    ensures var content := ReflectStep(env, d.ls, reply, ok).ls.finalContent;
            (content == CapsReached <==> LacksCaps(d, reply)) && !content.Clarification? && content != BudgetGone
  {
  }

  lemma {:induction false} ContentSet(env: Env, d: Drive, reply: Reply, ok: bool, narrative: Option<string>,
                                      claim: Option<string>, d': Drive, q: string)
    requires Holds(d, claim) && !Over(d) && d' == Iterated(env, d, reply, ok, narrative)
    ensures d'.ls.finalContent == Clarification(q) <==> HearsQuestion(d, reply, q)
    ensures d'.ls.finalContent == BudgetGone <==> LacksBudget(d)
    ensures d'.ls.finalContent == CapsReached <==> LacksCaps(d, reply)
  {
    match d.s {
      case Execute => ExecuteContent(env, d, reply, ok, q);
      case Reflect => ReflectContent(env, d, reply, ok);
      case _ =>
    }
  }

  lemma {:induction false} LastIteration(env: Env, caps: Caps, model: nat -> Reply, tools: nat -> bool,
                                         narrative: Option<string>, trail: seq<Drive>)
      returns (n: nat, claim: Option<string>)
    requires IsTrail(env, caps, model, tools, narrative, trail) && |trail| > 1
    ensures n == |trail| - 2 && Holds(trail[n], claim) && !Over(trail[n])
    ensures trail[n + 1] == Iterated(env, trail[n], model(n), tools(n), narrative)
  {
    n := |trail| - 2;
    var d;
    d, claim := LastStep(env, caps, model, tools, narrative, trail);
  }

  /** Every run: it reports a question exactly if an Execute heard just that question last,
      that the budget is gone exactly if it entered Execute with the budget used up, and that
      the caps are reached exactly if Reflect had no reflection or no replan left. */
  lemma {:induction false} EndsWithoutAnswerIff(env: Env, caps: Caps, maxTransitions: nat, model: nat -> Reply,
                                                tools: nat -> bool, narrative: Option<string>, trail: seq<Drive>,
                                                result: TaskResult, q: string)
    requires RunsTo(env, caps, maxTransitions, model, tools, narrative, trail, result)
    ensures result.content == Clarification(q) <==> EndsInQuestion(model, trail, q)
    ensures result.content == BudgetGone <==> EndsWithoutBudget(caps, model, trail)
    ensures result.content == CapsReached <==> EndsWithoutCaps(caps, model, trail)
  {
    if |trail| > 1 {
      var n, claim := LastIteration(env, caps, model, tools, narrative, trail);
      CountersCount(env, caps, model, tools, narrative, trail, n);
      ContentSet(env, trail[n], model(n), tools(n), narrative, claim, trail[n + 1], q);
    }
  }

  // ---- When Execute goes to Reflect by itself ----

  predicate SameHash(hashes: seq<string>, i: nat, j: nat)
    requires i < |hashes| && j < |hashes|
  {
    hashes[i] == hashes[j]
  }

  /** Two of the last four calls coincide. */
  ghost predicate RepeatsLately(hashes: seq<string>) {
    exists i, j {:trigger SameHash(hashes, i, j)} | 0 <= i < j < |hashes| && i >= |hashes| - 4 :: SameHash(hashes, i, j)
  }

  function Kinds(hashes: seq<string>): set<string> {
    set h | h in hashes
  }

  /** At least three quarters of the budget are used, and fewer than half of the calls differ. */
  predicate Wasteful(hashes: seq<string>, budget: nat) {
    |hashes| > 0 && 4 * |hashes| >= 3 * budget && 2 * |Kinds(hashes)| < |hashes|
  }

  lemma {:induction false} WindowMeans(calls: seq<string>, w: seq<string>, off: nat)
    requires off <= |calls| && w == calls[off..] && off == if |calls| > 4 then |calls| - 4 else 0
    ensures Repeats(w) <==> RepeatsLately(calls)
  {
    if Repeats(w) {
      var i, j :| 0 <= i < j < |w| && SameAt(w, i, j);
      assert SameHash(calls, off + i, off + j);
    }
    if RepeatsLately(calls) {
      var i, j :| 0 <= i < j < |calls| && i >= |calls| - 4 && SameHash(calls, i, j);
      assert SameAt(w, i - off, j - off);
    }
  }

  lemma {:induction false} KindsCounted(m: map<string, nat>, calls: seq<string>)
    requires Multiplicities(m, calls)
    ensures |Kinds(calls)| == |m|
  {
    assert Kinds(calls) == m.Keys;
    assert |m| == |m.Keys|;
  }

  /** The loop's window and map say the same about its whole call history. */
  lemma {:induction false} SignalsMean(ls: Loop)
    requires Inv(ls)
    ensures Repeats(ls.log.recent) <==> RepeatsLately(ls.log.calls)
    ensures NearExhausted(ls.log, ls.caps.toolBudget) <==> Wasteful(ls.log.calls, ls.caps.toolBudget)
  {
    var calls := ls.log.calls;
    var off := |calls| - |ls.log.recent|;
    assert ls.log.recent == calls[off..];
    WindowMeans(calls, ls.log.recent, off);
    KindsCounted(ls.log.unique, calls);
  }

  lemma {:induction false} TrailInv(env: Env, caps: Caps, model: nat -> Reply, tools: nat -> bool,
                                    narrative: Option<string>, trail: seq<Drive>, n: nat)
    requires IsTrail(env, caps, model, tools, narrative, trail) && n < |trail|
    ensures Inv(trail[n].ls) && trail[n].ls.caps == caps
  {
    if n == 0 {
      NewLoopInv(caps);
    } else {
      var d, r := trail[n - 1], Step(env, trail[n - 1].s, trail[n - 1].ls, model(n - 1), tools(n - 1));
      TrailInv(env, caps, model, tools, narrative, trail, n - 1);
      assert IteratesAt(env, model, tools, narrative, trail, n - 1);
      StepKeepsInv(env, d.s, d.ls, model(n - 1), tools(n - 1));
      KeepsInv(d, r, narrative);
    }
  }

  /** The k-th iteration enters Execute with budget left and two of the last four calls equal,
      but neither wasteful nor after a failure: a repetition that deserves a nudge. */
  predicate DeservesNudge(d: Drive) {
    && d.s == Execute && !BudgetExhausted(d.ls) && Repeats(d.ls.log.recent)
    && !NearExhausted(d.ls.log, d.ls.caps.toolBudget) && !HasToolFailure(d.ls.failures)
  }

  predicate DeservesAt(trail: seq<Drive>, k: nat)
    requires k < |trail|
  {
    DeservesNudge(trail[k])
  }

  ghost predicate NudgedBefore(trail: seq<Drive>, n: nat)
    requires n <= |trail|
  {
    exists k {:trigger DeservesAt(trail, k)} | 0 <= k < n :: DeservesAt(trail, k)
  }

  lemma {:induction false} StepNudges(env: Env, d: Drive, reply: Reply, ok: bool)
    ensures Step(env, d.s, d.ls, reply, ok).ls.loopBreakAttempted > 0 <==>
            d.ls.loopBreakAttempted > 0 || DeservesNudge(d)
  {
  }

  lemma {:induction false} NudgeOnRecord(env: Env, caps: Caps, model: nat -> Reply, tools: nat -> bool,
                                         narrative: Option<string>, trail: seq<Drive>, n: nat)
    requires IsTrail(env, caps, model, tools, narrative, trail) && n < |trail|
    ensures trail[n].ls.loopBreakAttempted > 0 <==> NudgedBefore(trail, n)
  {
    if n > 0 {
      var d := trail[n - 1];
      NudgeOnRecord(env, caps, model, tools, narrative, trail, n - 1);
      assert IteratesAt(env, model, tools, narrative, trail, n - 1);
      StepNudges(env, d, model(n - 1), tools(n - 1));
      DriverKeeps(d, Step(env, d.s, d.ls, model(n - 1), tools(n - 1)), narrative);
      assert DeservesAt(trail, n - 1) <==> DeservesNudge(d);
    }
  }

  /** In every run, an Execute with budget left goes to Reflect without asking the model exactly
      if the calls so far were wasteful, or two of the last four coincide and a failure is on
      record or an earlier repetition was nudged. */
  lemma {:induction false} EscalatesIff(env: Env, caps: Caps, model: nat -> Reply, tools: nat -> bool,
                                        narrative: Option<string>, trail: seq<Drive>, n: nat)
    requires IsTrail(env, caps, model, tools, narrative, trail) && n < |trail|
    ensures var hashes := Hashes(env, TotalsOf(model, trail, n).calls);
            Escalates(trail[n]) <==>
            && trail[n].s == Execute && |hashes| < caps.toolBudget
            && (Wasteful(hashes, caps.toolBudget) ||
                (RepeatsLately(hashes) && (FailedBefore(model, tools, trail, n) || NudgedBefore(trail, n))))
  {
    TrailInv(env, caps, model, tools, narrative, trail, n);
    CountersCount(env, caps, model, tools, narrative, trail, n);
    SignalsMean(trail[n].ls);
    FailureOnRecord(env, caps, model, tools, narrative, trail, n);
    NudgeOnRecord(env, caps, model, tools, narrative, trail, n);
  }

  // ---- Parse failures ----

  predicate FailsToParse(env: Env, model: nat -> Reply, tools: nat -> bool, trail: seq<Drive>, k: int)
    requires k < |trail|
  {
    k >= 0 && UnparsedAt(env, trail[k], model(k), tools(k))
  }

  /** How many of the iterations before the n-th failed to parse, in a row. */
  function InARow(env: Env, model: nat -> Reply, tools: nat -> bool, trail: seq<Drive>, n: nat): nat
    requires n <= |trail|
  {
    if n > 0 && FailsToParse(env, model, tools, trail, n - 1) then InARow(env, model, tools, trail, n - 1) + 1 else 0
  }

  lemma {:induction false} NudgesCount(env: Env, caps: Caps, model: nat -> Reply, tools: nat -> bool,
                                       narrative: Option<string>, trail: seq<Drive>, n: nat)
    requires IsTrail(env, caps, model, tools, narrative, trail) && n < |trail|
    ensures !Over(trail[n]) ==>
              trail[n].parseNudges == InARow(env, model, tools, trail, n) <= 2 && !trail[n].fallbackUsed
    ensures n > 0 && FailsToParse(env, model, tools, trail, n - 1) ==>
              (Over(trail[n]) <==> InARow(env, model, tools, trail, n) == 3)
  {
    if n > 0 {
      NudgesCount(env, caps, model, tools, narrative, trail, n - 1);
      assert IteratesAt(env, model, tools, narrative, trail, n - 1);
    }
  }

  /** Every run: a reply that cannot be parsed ends it exactly if the two before it could not be
      parsed either; then with the plain-prose answer, unless that is blank or missing. */
  lemma {:induction false} ThirdParseFailureEnds(env: Env, caps: Caps, model: nat -> Reply, tools: nat -> bool,
                                                 narrative: Option<string>, trail: seq<Drive>)
    requires IsTrail(env, caps, model, tools, narrative, trail) && |trail| > 1
    requires FailsToParse(env, model, tools, trail, |trail| - 2)
    ensures var n, d := |trail| - 1, trail[|trail| - 1];
            && (Over(d) <==> FailsToParse(env, model, tools, trail, n - 2) &&
                             FailsToParse(env, model, tools, trail, n - 3))
            && (Over(d) ==> (d.failed <==> narrative.None? || TrimSpace(narrative.value) == ""))
            && (Over(d) && !d.failed ==> d.ls.finalContent == Given(TrimSpace(narrative.value)))
  {
    var n := |trail| - 1;
    NudgesCount(env, caps, model, tools, narrative, trail, n);
    NudgesCount(env, caps, model, tools, narrative, trail, n - 1);
    assert IteratesAt(env, model, tools, narrative, trail, n - 1);
    if n >= 2 {
      NudgesCount(env, caps, model, tools, narrative, trail, n - 2);
    }
  }

  // ---- The plan ----

  /** The iteration gives the run a plan: Plan always, the fast path and a replan if they have one. */
  predicate GivesPlan(env: Env, d: Drive, reply: Reply) {
    || (d.s == Plan && Hears(d, reply))
    || (reply.Parsed? && reply.thought.plan != [] &&
        (TakesFastPath(env, d, reply) || (PlansAgain(d, reply) && reply.thought.action.kind == Replan)))
  }

  function LastPlan(env: Env, model: nat -> Reply, trail: seq<Drive>, n: nat): seq<string>
    requires n <= |trail|
  {
    if n == 0 then []
    else if GivesPlan(env, trail[n - 1], model(n - 1)) then model(n - 1).thought.plan
    else LastPlan(env, model, trail, n - 1)
  }

  lemma {:induction false} StepPlans(env: Env, d: Drive, reply: Reply, ok: bool)
    requires d.s != Done
    ensures var plan := Step(env, d.s, d.ls, reply, ok).ls.currentPlan;
            if GivesPlan(env, d, reply) then plan <= reply.thought.plan && |plan| <= 8 &&
              (|plan| == 8 || plan == reply.thought.plan)
            else plan == d.ls.currentPlan
  {
  }

  /** In every run the current plan is the last one given, cut to its first eight items. */
  lemma {:induction false} PlanIsLast(env: Env, caps: Caps, model: nat -> Reply, tools: nat -> bool,
                                      narrative: Option<string>, trail: seq<Drive>, n: nat)
    requires IsTrail(env, caps, model, tools, narrative, trail) && n < |trail|
    ensures var plan, last := trail[n].ls.currentPlan, LastPlan(env, model, trail, n);
            plan <= last && |plan| <= 8 && (|plan| == 8 || plan == last)
  {
    if n > 0 {
      var d := trail[n - 1];
      PlanIsLast(env, caps, model, tools, narrative, trail, n - 1);
      assert IteratesAt(env, model, tools, narrative, trail, n - 1);
      StepPlans(env, d, model(n - 1), tools(n - 1));
      DriverKeeps(d, Step(env, d.s, d.ls, model(n - 1), tools(n - 1)), narrative);
    }
  }

  // ---- The report ----

  /** The iteration asks the model, and the call fails. */
  predicate CallBreaks(d: Drive, reply: Reply) {
    (d.s == Assess || d.s == Plan || AsksExecute(d) || AsksReflect(d)) && reply.CallFailed?
  }

  lemma {:induction false} FailsIff(env: Env, d: Drive, reply: Reply, ok: bool, narrative: Option<string>)
    requires !Over(d)
    ensures var d' := Iterated(env, d, reply, ok, narrative);
            d'.failed && !UnparsedAt(env, d, reply, ok) <==> CallBreaks(d, reply)
  {
  }

  /** The report counts the tool calls run and the replies heard, and calls a run failed exactly
      if the last model call broke down, or three replies in a row could not be parsed and there
      was no plain-prose answer. */
  lemma {:induction false} ReportCounts(env: Env, caps: Caps, maxTransitions: nat, model: nat -> Reply,
                                        tools: nat -> bool, narrative: Option<string>, trail: seq<Drive>,
                                        result: TaskResult)
    requires RunsTo(env, caps, maxTransitions, model, tools, narrative, trail, result)
    ensures var n := |trail| - 1;
            && result.toolCallsMade == |TotalsOf(model, trail, n).calls|
            && result.iterations == TotalsOf(model, trail, n).heard
            && (result.failed <==>
                n > 0 &&
                (CallBreaks(trail[n - 1], model(n - 1)) ||
                 (FailsToParse(env, model, tools, trail, n - 1) && FailsToParse(env, model, tools, trail, n - 2) &&
                  FailsToParse(env, model, tools, trail, n - 3) && !IsProse(narrative))))
  {
    var n := |trail| - 1;
    CountersCount(env, caps, model, tools, narrative, trail, n);
    if n > 0 {
      assert IteratesAt(env, model, tools, narrative, trail, n - 1);
      FailsIff(env, trail[n - 1], model(n - 1), tools(n - 1), narrative);
      if FailsToParse(env, model, tools, trail, n - 1) {
        ThirdParseFailureEnds(env, caps, model, tools, narrative, trail);
      }
    }
  }
}
