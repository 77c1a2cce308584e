/** Which claims to be done a thinking run rejects (internal/agent/thinking.go, verifyStep and
    hasToolExecutionFailure), over whole runs. */
module ThinkingVerify {
  import opened Base
  import opened Thinking
  import opened ThinkingDriver
  import opened ThinkingContent

  // ---- What puts a failure on record ----

  /** Execute is past its tests of the budget and of repetitions. */
  predicate AsksExecute(d: Drive) {
    d.s == Execute && !BudgetExhausted(d.ls) && (Trapped(d.ls) ==> Nudges(d.ls))
  }

  /** The reply asks for a tool that fails and is not called by one of the control-flow names. */
  predicate FailingCall(reply: Reply, ok: bool) {
    && reply.Parsed? && reply.thought.action.kind == CallTool && reply.thought.action.toolCall.Some?
    && !ok && RealFailure(reply.thought.action.toolCall.value.name)
  }

  /** A tool is run and fails. */
  predicate ToolFails(d: Drive, reply: Reply, ok: bool) {
    (AsksExecute(d) || AsksReflect(d)) && FailingCall(reply, ok)
  }

  /** Execute goes to Reflect by itself, because of repeated calls. */
  predicate Escalates(d: Drive) {
    d.s == Execute && !BudgetExhausted(d.ls) && Trapped(d.ls) && !Nudges(d.ls)
  }

  /** Failures count only if calls were made, and the window holds only calls that were. */
  predicate Counted(ls: Loop) {
    |ls.log.recent| <= ls.log.used && (HasToolFailure(ls.failures) ==> ls.log.used > 0)
  }

  lemma {:induction false} RunToolFails(env: Env, ls: Loop, call: ToolCall, ok: bool)
    requires Counted(ls)
    ensures var ls' := RunTool(env, ls, call, ok).ls;
            && (HasToolFailure(ls'.failures) <==> HasToolFailure(ls.failures) || (!ok && RealFailure(call.name)))
            && Counted(ls')
  {
    FailureAppend(ls.failures, call.name);
  }

  lemma {:induction false} TrappedUsed(ls: Loop)
    requires Counted(ls) && Trapped(ls)
    ensures ls.log.used > 0
  {
    if Repeats(ls.log.recent) {
      var i, j :| 0 <= i < j < |ls.log.recent| && SameAt(ls.log.recent, i, j);
    }
  }

  lemma {:induction false} TurnFails(env: Env, ls: Loop, reply: Reply, ok: bool)
    requires Counted(ls)
    ensures var ls' := ExecuteTurn(env, ls, reply, ok).ls;
            && (HasToolFailure(ls'.failures) <==> HasToolFailure(ls.failures) || FailingCall(reply, ok))
            && Counted(ls')
  {
    FailureAppend(ls.failures, "replan");
    FailureAppend(ls.failures, "unknown");
    FailureAppend(ls.failures, "");
    if reply.Parsed? && reply.thought.action.toolCall.Some? {
      RunToolFails(env, ls.(thoughts := ls.thoughts + [reply.thought]), reply.thought.action.toolCall.value, ok);
    }
  }

  lemma {:induction false} ReflectFails(env: Env, d: Drive, reply: Reply, ok: bool)
    requires Counted(d.ls) && d.s == Reflect
    ensures var ls' := ReflectStep(env, d.ls, reply, ok).ls;
            (HasToolFailure(ls'.failures) <==> HasToolFailure(d.ls.failures) || ToolFails(d, reply, ok)) &&
            Counted(ls')
  {
    FailureAppend(d.ls.failures, "");
    if reply.Parsed? && reply.thought.action.toolCall.Some? {
      RunToolFails(env, d.ls.(thoughts := d.ls.thoughts + [reply.thought],
                              reflectionsUsed := d.ls.reflectionsUsed + 1),
        reply.thought.action.toolCall.value, ok);
    }
  }

  lemma {:induction false} ExecuteFails(env: Env, d: Drive, reply: Reply, ok: bool)
    requires Counted(d.ls) && d.s == Execute
    ensures var ls' := ExecuteStep(env, d.ls, reply, ok).ls;
            && (HasToolFailure(ls'.failures) <==>
                HasToolFailure(d.ls.failures) || ToolFails(d, reply, ok) || Escalates(d))
            && Counted(ls')
  {
    if Escalates(d) {
      FailureAppend(d.ls.failures, "execute");
      TrappedUsed(d.ls);
    } else if !BudgetExhausted(d.ls) {
      TurnFails(env, if Nudges(d.ls) then d.ls.(loopBreakAttempted := d.ls.loopBreakAttempted + 1) else d.ls,
        reply, ok);
    }
  }

  /** A step puts a failure that Verify looks at on record exactly if a tool fails or Execute
      escalates. */
  lemma {:induction false} StepFails(env: Env, d: Drive, reply: Reply, ok: bool)
    requires Counted(d.ls)
    ensures var ls' := Step(env, d.s, d.ls, reply, ok).ls;
            && (HasToolFailure(ls'.failures) <==>
                HasToolFailure(d.ls.failures) || ToolFails(d, reply, ok) || Escalates(d))
            && Counted(ls')
  {
    match d.s {
      case Execute => ExecuteFails(env, d, reply, ok);
      case Reflect => ReflectFails(env, d, reply, ok);
      case Verify => FailureAppend(d.ls.failures, "verify");
      case _ =>
    }
  }

  // ---- Over runs ----

  /** In the k-th iteration a tool failed or Execute escalated. */
  predicate FailsAt(model: nat -> Reply, tools: nat -> bool, trail: seq<Drive>, k: nat)
    requires k < |trail|
  {
    ToolFails(trail[k], model(k), tools(k)) || Escalates(trail[k])
  }

  ghost predicate FailedBefore(model: nat -> Reply, tools: nat -> bool, trail: seq<Drive>, n: nat)
    requires n <= |trail|
  {
    exists k {:trigger FailsAt(model, tools, trail, k)} | 0 <= k < n :: FailsAt(model, tools, trail, k)
  }

  lemma {:induction false} FailedNext(model: nat -> Reply, tools: nat -> bool, trail: seq<Drive>, n: nat)
    requires n < |trail|
    ensures FailedBefore(model, tools, trail, n + 1) <==>
            FailedBefore(model, tools, trail, n) || FailsAt(model, tools, trail, n)
  {
  }

  lemma {:induction false} IterationFails(env: Env, d: Drive, reply: Reply, ok: bool, narrative: Option<string>)
    requires Counted(d.ls)
    ensures var ls' := Iterated(env, d, reply, ok, narrative).ls;
            && (HasToolFailure(ls'.failures) <==>
                HasToolFailure(d.ls.failures) || ToolFails(d, reply, ok) || Escalates(d))
            && Counted(ls')
  {
    StepFails(env, d, reply, ok);
  }

  lemma {:induction false} FailureOnRecord(env: Env, caps: Caps, model: nat -> Reply, tools: nat -> bool,
                                           narrative: Option<string>, trail: seq<Drive>, n: nat)
    requires IsTrail(env, caps, model, tools, narrative, trail) && n < |trail|
    ensures HasToolFailure(trail[n].ls.failures) <==> FailedBefore(model, tools, trail, n)
    ensures Counted(trail[n].ls)
  {
    if n > 0 {
      FailureOnRecord(env, caps, model, tools, narrative, trail, n - 1);
      assert IteratesAt(env, model, tools, narrative, trail, n - 1);
      IterationFails(env, trail[n - 1], model(n - 1), tools(n - 1), narrative);
      FailedNext(model, tools, trail, n - 1);
    }
  }

  /** The reply gives evidence for what it claims. */
  predicate HasEvidence(reply: Reply) {
    reply.Parsed? && reply.thought.evidence != []
  }

  /** Verify rejects a claim exactly if the reply that made it has no evidence, and before it a
      tool failed or Execute escalated. */
  lemma {:induction false} VerifyRejectsIff(env: Env, caps: Caps, model: nat -> Reply, tools: nat -> bool,
                                            narrative: Option<string>, trail: seq<Drive>, k: nat)
    requires IsTrail(env, caps, model, tools, narrative, trail) && 0 < k < |trail| - 1 && trail[k].s == Verify
    ensures trail[k - 1].s == Execute && trail[k + 1].s in {Done, Reflect}
    ensures trail[k + 1].s == Reflect <==> !HasEvidence(model(k - 1)) && FailedBefore(model, tools, trail, k)
  {
    assert IteratesAt(env, model, tools, narrative, trail, k) && IteratesAt(env, model, tools, narrative, trail, k - 1);
    VerifyFollowsClaim(env, caps, model, tools, narrative, trail, k);
    FailureOnRecord(env, caps, model, tools, narrative, trail, k);
    ClaimIsLast(env, trail[k - 1], model(k - 1), tools(k - 1), narrative);
  }

  lemma {:induction false} ClaimIsLast(env: Env, d: Drive, reply: Reply, ok: bool, narrative: Option<string>)
    requires d.s == Execute && Iterated(env, d, reply, ok, narrative).s == Verify
    ensures var thoughts := Iterated(env, d, reply, ok, narrative).ls.thoughts;
            reply.Parsed? && thoughts != [] && thoughts[|thoughts| - 1] == reply.thought
  {
  }

  // ---- A claim rejected although every tool worked ----

  function AllWork(): nat -> bool {
    (k: nat) => true
  }

  function Calls(n: nat): Reply {
    Says(CallTool, Some(ToolCall(Tally(n), "")))
  }

  /** Calls three tools, the first two of them again, in Reflect a fourth, and claims to be done. */
  function Circling(claim: string): nat -> Reply {
    (k: nat) =>
      if k == 2 || k == 5 then Calls(1) else if k == 3 || k == 6 then Calls(2) else if k == 4 then Calls(3)
      else if k == 8 then Calls(6) else Parsed(Thought([], Action(FinalAnswer, None, claim, ""), 0.0, [], ""))
  }

  /** A fresh run whose calls, all under different names, worked. */
  ghost predicate AllWell(caps: Caps, d: Drive, used: nat) {
    && d == Drive(Execute, d.ls, 0, false, false) && d.ls.caps == caps && AllDifferent(d.ls.log)
    && d.ls.log.used == used && d.ls.failures == []
    && d.ls.reflectionsUsed == 0 && d.ls.loopBreakAttempted == 0
  }

  lemma {:induction false} CallNext(caps: Caps, claim: string, narrative: Option<string>, trail: seq<Drive>, used: nat)
      returns (longer: seq<Drive>)
    requires IsTrail(NamedCalls(), caps, Circling(claim), AllWork(), narrative, trail)
    requires used < 3 && |trail| == used + 3 && AllWell(caps, trail[|trail| - 1], used) && caps.toolBudget > 6
    ensures IsTrail(NamedCalls(), caps, Circling(claim), AllWork(), narrative, longer) && |longer| == used + 4
    ensures trail <= longer && AllWell(caps, longer[|longer| - 1], used + 1)
    ensures longer[|longer| - 1].ls.log.calls == trail[|trail| - 1].ls.log.calls + [Tally(used + 1)]
  {
    var ls := trail[|trail| - 1].ls;
    DifferentNotTrapped(ls);
    DifferentAgain(ls.log);
    assert Circling(claim)(used + 2) == Calls(used + 1) == CallReply(ls);
    longer := Go(NamedCalls(), caps, Circling(claim), AllWork(), narrative, trail, Execute, Called(ls, true));
  }

  lemma {:induction false} ThreeCalls(caps: Caps, claim: string, narrative: Option<string>)
      returns (trail: seq<Drive>)
    requires caps.toolBudget > 6
    ensures IsTrail(NamedCalls(), caps, Circling(claim), AllWork(), narrative, trail) && |trail| == 6
    ensures AllWell(caps, trail[5], 3) && trail[5].ls.log.calls == [Tally(1), Tally(2), Tally(3)]
  {
    var any := Circling(claim)(0).thought;
    var ls := NewLoop(caps).(thoughts := [any]);
    trail := [FirstDrive(caps)];
    trail := Go(NamedCalls(), caps, Circling(claim), AllWork(), narrative, trail, Plan, ls);
    trail := Go(NamedCalls(), caps, Circling(claim), AllWork(), narrative, trail, Execute,
      ls.(thoughts := [any, any]));
    trail := CallNext(caps, claim, narrative, trail, 0);
    trail := CallNext(caps, claim, narrative, trail, 1);
    trail := CallNext(caps, claim, narrative, trail, 2);
  }

  lemma {:induction false} CircleLogs(log: CallLog, log1: CallLog, log2: CallLog)
    requires AllDifferent(log) && log.calls == [Tally(1), Tally(2), Tally(3)]
    requires log1 == Logged(NamedCalls(), log, ToolCall(Tally(1), ""))
    requires log2 == Logged(NamedCalls(), log1, ToolCall(Tally(2), ""))
    ensures Repeats(log1.recent) && log1.used == 4 && |log1.unique| >= 3
    ensures Repeats(log2.recent) && log2.used == 5 && |log2.unique| >= 3 && Recovering(log2)
  {
    var a, b, c := LastThree(log);
    RepeatTwo(log, a, b, c, log1, log2);
    RepeatsRecover(log, a, b, c, log2);
  }

  /** The first two calls again, the second one nudged; then Execute escalates. */
  lemma {:induction false} Circle(ls: Loop, reply: Reply) returns (ls1: Loop, ls2: Loop)
    requires AllDifferent(ls.log) && ls.log.calls == [Tally(1), Tally(2), Tally(3)] && ls.failures == []
    requires ls.loopBreakAttempted == 0 && ls.caps.toolBudget > 6
    ensures Step(NamedCalls(), Execute, ls, Calls(1), true) == Result(ls1, Moved(Execute))
    ensures Step(NamedCalls(), Execute, ls1, Calls(2), true) == Result(ls2, Moved(Execute))
    ensures Step(NamedCalls(), Execute, ls2, reply, true) == Result(Failure(ls2, "execute"), Moved(Reflect))
    ensures Recovering(ls2.log) && ls2.log.used == 5 && ls2.failures == []
    ensures ls2.caps == ls.caps && ls2.reflectionsUsed == ls.reflectionsUsed
  {
    DifferentNotTrapped(ls);
    ls1 := CalledAs(ls, Tally(1));
    ls2 := CalledAs(ls1, Tally(2)).(loopBreakAttempted := 1);
    CircleLogs(ls.log, ls1.log, ls2.log);
  }

  lemma {:induction false} CallTwice(caps: Caps, claim: string, narrative: Option<string>, trail: seq<Drive>)
      returns (longer: seq<Drive>)
    requires IsTrail(NamedCalls(), caps, Circling(claim), AllWork(), narrative, trail) && |trail| == 6
    requires AllWell(caps, trail[5], 3) && trail[5].ls.log.calls == [Tally(1), Tally(2), Tally(3)]
    requires caps.toolBudget > 6
    ensures IsTrail(NamedCalls(), caps, Circling(claim), AllWork(), narrative, longer) && |longer| == 9
    ensures var d := longer[8];
            && d == Drive(Reflect, d.ls, 0, false, false) && d.ls.caps == caps && Recovering(d.ls.log)
            && d.ls.log.used == 5 && d.ls.failures == ["execute"] && d.ls.reflectionsUsed == 0
  {
    var ls1, ls2 := Circle(trail[5].ls, Circling(claim)(7));
    longer := Go(NamedCalls(), caps, Circling(claim), AllWork(), narrative, trail, Execute, ls1);
    longer := Go(NamedCalls(), caps, Circling(claim), AllWork(), narrative, longer, Execute, ls2);
    longer := Go(NamedCalls(), caps, Circling(claim), AllWork(), narrative, longer, Reflect, Failure(ls2, "execute"));
  }

  /** A call in Reflect that ends the repetition, and a claim that Verify rejects. */
  lemma {:induction false} ClaimAfterAll(ls: Loop, claim: string) returns (ls1: Loop, ls2: Loop)
    requires Recovering(ls.log) && ls.log.used == 5 && ls.failures == ["execute"] && ls.reflectionsUsed == 0
    requires ls.caps.toolBudget > 6 && ls.caps.maxReflections > 0
    ensures Step(NamedCalls(), Reflect, ls, Calls(6), true) == Result(ls1, Moved(Execute))
    ensures Step(NamedCalls(), Execute, ls1, Circling(claim)(9), true) == Result(ls2, Moved(Verify))
    ensures Step(NamedCalls(), Verify, ls2, Circling(claim)(10), true) == Result(Failure(ls2, "verify"), Moved(Reflect))
  {
    assert ls.log.used + 1 == 6;
    ls1 := Called(ls, true).(reflectionsUsed := 1);
    FreshCallRecovers(ls1, ls.log);
    ls2 := ls1.(thoughts := ls1.thoughts + [Circling(claim)(9).thought], finalContent := Given(claim));
    assert FailureAt(ls2.failures, 0);
  }

  /** Every tool works, and yet Verify rejects the claim, because Execute escalated: for any
      claim, any budget of seven calls or more and any number of reflections. */
  lemma {:induction false} RejectedWithoutFailure(caps: Caps, claim: string, narrative: Option<string>)
      returns (trail: seq<Drive>)
    requires caps.toolBudget > 6 && caps.maxReflections > 0
    ensures IsTrail(NamedCalls(), caps, Circling(claim), AllWork(), narrative, trail)
    ensures Rejected(Circling(claim), trail, claim)
  {
    trail := ThreeCalls(caps, claim, narrative);
    trail := CallTwice(caps, claim, narrative, trail);
    var ls1, ls2 := ClaimAfterAll(trail[8].ls, claim);
    trail := Go(NamedCalls(), caps, Circling(claim), AllWork(), narrative, trail, Execute, ls1);
    trail := Go(NamedCalls(), caps, Circling(claim), AllWork(), narrative, trail, Verify, ls2);
    trail := Go(NamedCalls(), caps, Circling(claim), AllWork(), narrative, trail, Reflect, Failure(ls2, "verify"));
    assert RejectsAt(trail, 9) && AnswerOf(Circling(claim)(9)) == claim;
  }
}
