/** Where the text that a thinking run returns comes from (internal/agent/thinking.go,
    executeWithThinking and its steps). */
module ThinkingContent {
  import opened Base
  import opened Thinking
  import opened ThinkingDriver

  function AnswerOf(reply: Reply): string {
    if reply.Parsed? then reply.thought.action.finalAnswer else ""
  }

  /** The claim to be done that was last put to Verify. */
  function LastClaim(model: nat -> Reply, trail: seq<Drive>): Option<string> {
    var n := |trail| - 1;
    if n <= 0 then None
    else if trail[n - 1].s == Execute && trail[n].s == Verify then Some(AnswerOf(model(n - 1)))
    else LastClaim(model, trail[..n])
  }

  function Claimed(claim: Option<string>): Content {
    match claim case None => NoContent case Some(t) => Given(t)
  }

  predicate RejectsAt(trail: seq<Drive>, k: nat)
    requires k + 2 < |trail|
  {
    trail[k].s == Execute && trail[k + 1].s == Verify && trail[k + 2].s == Reflect
  }

  /** Verify sent a run with this claim to Reflect. */
  ghost predicate Rejected(model: nat -> Reply, trail: seq<Drive>, t: string) {
    exists k {:trigger RejectsAt(trail, k)} | 0 <= k < |trail| - 2 :: RejectsAt(trail, k) && AnswerOf(model(k)) == t
  }

  // ---- How a run can end ----

  predicate MissesCall(reply: Reply) {
    reply.Parsed? && reply.thought.action.kind == CallTool && reply.thought.action.toolCall.None?
  }

  /** Verify let the last claim pass. */
  predicate EndsAccepted(trail: seq<Drive>) {
    |trail| > 1 && trail[|trail| - 2].s == Verify && trail[|trail| - 1].s == Done
  }

  /** Reflect asks the model. */
  predicate AsksReflect(d: Drive) {
    d.s == Reflect && d.ls.reflectionsUsed < d.ls.caps.maxReflections
  }

  predicate Answers(reply: Reply, t: string) {
    reply.Parsed? && reply.thought.action.kind == FinalAnswer && reply.thought.action.finalAnswer == t
  }

  predicate Prose(env: Env, d: Drive, reply: Reply, ok: bool, narrative: Option<string>, t: string) {
    UnparsedAt(env, d, reply, ok) && narrative.Some? && t == TrimSpace(narrative.value)
  }

  /** The last reply was an answer given in Reflect. */
  predicate EndsInAnswer(model: nat -> Reply, trail: seq<Drive>, t: string) {
    |trail| > 1 && AsksReflect(trail[|trail| - 2]) && Answers(model(|trail| - 2), t)
  }

  /** The last reply, given in Reflect, asked for a tool call and did not say which. */
  predicate EndsInMissingCall(model: nat -> Reply, trail: seq<Drive>) {
    |trail| > 1 && AsksReflect(trail[|trail| - 2]) && MissesCall(model(|trail| - 2))
  }

  /** The last reply could not be parsed, and the plain-prose call gave the text. */
  predicate EndsInProse(env: Env, model: nat -> Reply, tools: nat -> bool, narrative: Option<string>,
                        trail: seq<Drive>, t: string) {
    |trail| > 1 && Prose(env, trail[|trail| - 2], model(|trail| - 2), tools(|trail| - 2), narrative, t)
  }

  // ---- The content along a run ----

  /** Before a run reaches Done its content is its last claim, and in Verify that claim has
      just been made. */
  ghost predicate Holds(d: Drive, claim: Option<string>) {
    && (d.s != Done ==> d.ls.finalContent == Claimed(claim))
    && (d.s == Verify ==> claim.Some? && !d.failed)
  }

  lemma {:induction false} NextHolds(env: Env, d: Drive, reply: Reply, ok: bool, narrative: Option<string>,
                                     claim: Option<string>)
    requires Holds(d, claim) && !Over(d)
    ensures var d' := Iterated(env, d, reply, ok, narrative);
            Holds(d', if d.s == Execute && d'.s == Verify then Some(AnswerOf(reply)) else claim)
  {
  }

  lemma {:induction false} TrailHolds(env: Env, caps: Caps, model: nat -> Reply, tools: nat -> bool,
                                      narrative: Option<string>,
                                      trail: seq<Drive>)
    requires IsTrail(env, caps, model, tools, narrative, trail)
    ensures Holds(trail[|trail| - 1], LastClaim(model, trail))
    decreases |trail|
  {
    var n := |trail| - 1;
    if n > 0 {
      FrontIsTrail(env, caps, model, tools, narrative, trail, trail[..n]);
      TrailHolds(env, caps, model, tools, narrative, trail[..n]);
      assert IteratesAt(env, model, tools, narrative, trail, n - 1);
      NextHolds(env, trail[n - 1], model(n - 1), tools(n - 1), narrative, LastClaim(model, trail[..n]));
    }
  }

  // ---- Whose text is returned ----

  lemma {:induction false} LastStep(env: Env, caps: Caps, model: nat -> Reply, tools: nat -> bool,
                                    narrative: Option<string>,
                                    trail: seq<Drive>) returns (d: Drive, claim: Option<string>)
    requires IsTrail(env, caps, model, tools, narrative, trail) && |trail| > 1
    ensures d == trail[|trail| - 2] && !Over(d) && Holds(d, claim)
    ensures trail[|trail| - 1] == Iterated(env, d, model(|trail| - 2), tools(|trail| - 2), narrative)
    ensures trail[|trail| - 1].s == Done ==> LastClaim(model, trail) == claim
  {
    var n := |trail| - 1;
    FrontIsTrail(env, caps, model, tools, narrative, trail, trail[..n]);
    TrailHolds(env, caps, model, tools, narrative, trail[..n]);
    assert IteratesAt(env, model, tools, narrative, trail, n - 1);
    d, claim := trail[n - 1], LastClaim(model, trail[..n]);
  }

  lemma {:induction false} StepText(env: Env, d: Drive, reply: Reply, ok: bool, narrative: Option<string>,
                                    claim: Option<string>,
                                    d': Drive, t: string)
    requires Holds(d, claim) && !Over(d) && d' == Iterated(env, d, reply, ok, narrative)
    requires d'.s == Done && d'.ls.finalContent == Given(t)
    ensures (d.s == Verify && claim == Some(t)) || (AsksReflect(d) && Answers(reply, t)) ||
            Prose(env, d, reply, ok, narrative, t)
            <==> !(AsksReflect(d) && MissesCall(reply))
    ensures AsksReflect(d) && MissesCall(reply) ==> claim == Some(t)
  {
  }

  /** A text at Done was accepted by Verify, answered in Reflect, or given as plain prose,
      exactly unless the last reply was a request in Reflect for a tool call it did not name;
      that brings back the last claim. */
  lemma {:induction false} TextAtDone(env: Env, caps: Caps, model: nat -> Reply, tools: nat -> bool,
                                      narrative: Option<string>,
                                      trail: seq<Drive>, t: string)
    requires IsTrail(env, caps, model, tools, narrative, trail)
    requires trail[|trail| - 1].s == Done && trail[|trail| - 1].ls.finalContent == Given(t)
    ensures (EndsAccepted(trail) && LastClaim(model, trail) == Some(t)) || EndsInAnswer(model, trail, t) ||
            EndsInProse(env, model, tools, narrative, trail, t)
            <==> !EndsInMissingCall(model, trail)
    ensures EndsInMissingCall(model, trail) ==> LastClaim(model, trail) == Some(t) && Rejected(model, trail, t)
  {
    var n := |trail| - 2;
    var d, claim := LastStep(env, caps, model, tools, narrative, trail);
    StepText(env, d, model(n), tools(n), narrative, claim, trail[n + 1], t);
    if EndsInMissingCall(model, trail) {
      ClaimRejected(env, caps, model, tools, narrative, trail);
    }
  }

  /** A claim that is no longer in Verify, and was not accepted, was rejected. */
  lemma {:induction false} ClaimRejected(env: Env, caps: Caps, model: nat -> Reply, tools: nat -> bool,
                                         narrative: Option<string>,
                                         trail: seq<Drive>)
    requires IsTrail(env, caps, model, tools, narrative, trail) && LastClaim(model, trail).Some?
    requires trail[|trail| - 1].s != Verify && !EndsAccepted(trail)
    ensures Rejected(model, trail, LastClaim(model, trail).value)
    decreases |trail|
  {
    var n := |trail| - 1;
    var front := trail[..n];
    assert IteratesAt(env, model, tools, narrative, trail, n - 1);
    assert front[n - 1] == trail[n - 1];
    if trail[n - 1].s == Verify {
      VerifyFollowsClaim(env, caps, model, tools, narrative, trail, n - 1);
      assert front[..n - 1] == trail[..n - 1] && front[n - 2] == trail[n - 2];
      assert RejectsAt(trail, n - 2);
    } else {
      FrontIsTrail(env, caps, model, tools, narrative, trail, front);
      ClaimRejected(env, caps, model, tools, narrative, front);
      var k :| 0 <= k < |front| - 2 && RejectsAt(front, k) && AnswerOf(model(k)) == LastClaim(model, trail).value;
      assert RejectsAt(trail, k);
    }
  }

  lemma {:induction false} VerifyFollowsClaim(env: Env, caps: Caps, model: nat -> Reply, tools: nat -> bool,
                                              narrative: Option<string>,
                                              trail: seq<Drive>, k: nat)
    requires IsTrail(env, caps, model, tools, narrative, trail) && k < |trail| && trail[k].s == Verify &&
             !trail[k].failed
    ensures k > 0 && trail[k - 1].s == Execute
  {
    assert k > 0 ==> IteratesAt(env, model, tools, narrative, trail, k - 1);
  }

  /** A run that does not reach Done, at the ceiling or by an error, reports its last claim if
      it made one; Verify has rejected that claim, unless the ceiling came before its verdict. */
  lemma {:induction false} TextOfCutRun(env: Env, caps: Caps, model: nat -> Reply, tools: nat -> bool,
                                        narrative: Option<string>,
                                        trail: seq<Drive>, t: string)
    requires IsTrail(env, caps, model, tools, narrative, trail) && trail[|trail| - 1].s != Done
    ensures var d := trail[|trail| - 1];
            && (d.ls.finalContent == Given(t) <==> LastClaim(model, trail) == Some(t))
            && (d.ls.finalContent == Given(t) && d.s != Verify ==> Rejected(model, trail, t))
            && (d.ls.finalContent.Given? || d.ls.finalContent == NoContent) && (d.s == Verify ==> !d.failed)
  {
    TrailHolds(env, caps, model, tools, narrative, trail);
    var d := trail[|trail| - 1];
    if d.ls.finalContent == Given(t) && d.s != Verify {
      ClaimRejected(env, caps, model, tools, narrative, trail);
    }
  }

  // ---- When the report calls a finished run exhausted ----

  /** The run reached Done, and the text there is empty: Verify passed an empty claim, Reflect
      gave an empty answer, or a missing tool call brought back an empty claim or none. */
  predicate EndsEmpty(model: nat -> Reply, trail: seq<Drive>) {
    && |trail| > 1 && trail[|trail| - 1].s == Done
    && var claim := LastClaim(model, trail);
    || (EndsAccepted(trail) && claim == Some("")) || EndsInAnswer(model, trail, "")
    || (EndsInMissingCall(model, trail) && claim in {None, Some("")})
  }

  /** Below the ceiling the report says "exhausted" exactly for the finished runs whose text is
      empty. */
  lemma {:induction false} ExhaustedIff(env: Env, caps: Caps, maxTransitions: nat, model: nat -> Reply,
                                        tools: nat -> bool,
                                        narrative: Option<string>, trail: seq<Drive>, result: TaskResult)
    requires RunsTo(env, caps, maxTransitions, model, tools, narrative, trail, result) && |trail| - 1 < maxTransitions
    ensures result.exhausted <==> EndsEmpty(model, trail)
  {
    if |trail| > 1 {
      var d, claim := LastStep(env, caps, model, tools, narrative, trail);
    }
  }

  // ---- Both happen ----

  lemma {:induction false} Go(env: Env, caps: Caps, model: nat -> Reply, tools: nat -> bool, narrative: Option<string>,
                              trail: seq<Drive>, s: State, ls: Loop) returns (longer: seq<Drive>)
    requires IsTrail(env, caps, model, tools, narrative, trail) && !Over(trail[|trail| - 1])
    requires var n, d := |trail| - 1, trail[|trail| - 1];
             Step(env, d.s, d.ls, model(n), tools(n)) == Result(ls, Moved(s))
    ensures longer == trail + [Drive(s, ls, 0, trail[|trail| - 1].fallbackUsed, false)]
    ensures IsTrail(env, caps, model, tools, narrative, longer)
  {
    var d' := Drive(s, ls, 0, trail[|trail| - 1].fallbackUsed, false);
    AddIteration(env, caps, model, tools, narrative, trail, trail[|trail| - 1], d');
    longer := trail + [d'];
  }

  function EmptyAnswers(): nat -> Reply {
    (k: nat) => Says(FinalAnswer, None)
  }

  lemma {:induction false} EmptyAnswerEnds(env: Env, caps: Caps, tools: nat -> bool, narrative: Option<string>,
                                           trail: seq<Drive>, ls: Loop) returns (longer: seq<Drive>)
    requires caps.toolBudget > 0 && IsTrail(env, caps, EmptyAnswers(), tools, narrative, trail)
    requires trail[|trail| - 1] == Drive(Execute, ls, 0, false, false) && ls == NewLoop(caps).(thoughts := ls.thoughts)
    ensures IsTrail(env, caps, EmptyAnswers(), tools, narrative, longer) && |longer| == |trail| + 2
    ensures var d := longer[|longer| - 1]; d.s == Done && d.ls.finalContent == Given("") && !d.failed
  {
    var ls1 := ls.(thoughts := ls.thoughts + [Says(FinalAnswer, None).thought], finalContent := Given(""));
    var verifying := Go(env, caps, EmptyAnswers(), tools, narrative, trail, Verify, ls1);
    longer := Go(env, caps, EmptyAnswers(), tools, narrative, verifying, Done, ls1);
  }

  /** A model that only ever gives the empty answer: the run is over after at most four of its
      transitions, and is reported as exhausted. */
  lemma {:induction false} EmptyAnswerIsExhausted(env: Env, caps: Caps, maxTransitions: nat, tools: nat -> bool,
                                                  narrative: Option<string>)
    returns (trail: seq<Drive>, result: TaskResult)
    requires caps.toolBudget > 0 && maxTransitions > 4
    ensures RunsTo(env, caps, maxTransitions, EmptyAnswers(), tools, narrative, trail, result)
    ensures result.exhausted && |trail| - 1 < maxTransitions
  {
    var th := Says(FinalAnswer, None).thought;
    var s, ls := AssessStep(env, NewLoop(caps), Parsed(th)).outcome.next, NewLoop(caps).(thoughts := [th]);
    trail := [FirstDrive(caps)];
    trail := Go(env, caps, EmptyAnswers(), tools, narrative, trail, s, ls);
    if s == Plan {
      ls := ls.(thoughts := [th, th]);
      trail := Go(env, caps, EmptyAnswers(), tools, narrative, trail, Execute, ls);
    }
    trail := EmptyAnswerEnds(env, caps, tools, narrative, trail, ls);
    result := Report(trail[|trail| - 1]);
  }

  /** Replans, calls a tool once, claims to be done, and then asks for a tool call it does not
      name. */
  function Persistent(call: ToolCall, claim: string): nat -> Reply {
    (k: nat) =>
      if k == 2 then Says(CallTool, Some(call))
      else if k == 5 then Parsed(Thought([], Action(FinalAnswer, None, claim, ""), 0.0, [], ""))
      else if k == 7 then Says(CallTool, None)
      else Says(Replan, None)
  }

  function AllFail(): nat -> bool {
    (k: nat) => false
  }

  function OneFailure(env: Env, caps: Caps, call: ToolCall): Loop {
    var again := Says(Replan, None).thought;
    NewLoop(caps).(thoughts := [again, again, Says(CallTool, Some(call)).thought],
                   log := Logged(env, NewLoop(caps).log, call), failures := [call.name])
  }

  /** The first three iterations: the tool call fails. */
  lemma {:induction false} CallOnce(env: Env, caps: Caps, call: ToolCall, claim: string, narrative: Option<string>)
      returns (trail: seq<Drive>)
    requires caps.toolBudget > 1
    ensures IsTrail(env, caps, Persistent(call, claim), AllFail(), narrative, trail) && |trail| == 4
    ensures trail[3] == Drive(Reflect, OneFailure(env, caps, call), 0, false, false)
  {
    var model, again := Persistent(call, claim), Says(Replan, None).thought;
    var ls1 := NewLoop(caps).(thoughts := [again]);
    var ls2 := ls1.(thoughts := [again, again]);
    trail := [FirstDrive(caps)];
    trail := Go(env, caps, model, AllFail(), narrative, trail, Plan, ls1);
    trail := Go(env, caps, model, AllFail(), narrative, trail, Execute, ls2);
    assert !Trapped(ls2);
    trail := Go(env, caps, model, AllFail(), narrative, trail, Reflect, OneFailure(env, caps, call));
  }

  /** Whatever is claimed after a failed tool call without evidence: Verify rejects it, and a
      reply in Reflect that asks for a tool call without naming one returns it all the same. */
  lemma {:induction false} RejectedClaimReturned(env: Env, caps: Caps, maxTransitions: nat, call: ToolCall,
                                                 claim: string,
                                                 narrative: Option<string>)
    returns (trail: seq<Drive>, result: TaskResult)
    requires caps.toolBudget > 1 && caps.maxReflections > 1 && caps.maxReplans > 0 && maxTransitions >= 8 &&
             RealFailure(call.name)
    ensures RunsTo(env, caps, maxTransitions, Persistent(call, claim), AllFail(), narrative, trail, result)
    ensures result.content == Given(claim) && !result.failed && Rejected(Persistent(call, claim), trail, claim)
  {
    var model, again, ls3 := Persistent(call, claim), Says(Replan, None).thought, OneFailure(env, caps, call);
    trail := CallOnce(env, caps, call, claim, narrative);
    var ls4 := ls3.(thoughts := ls3.thoughts + [again], reflectionsUsed := 1, replansUsed := 1);
    trail := Go(env, caps, model, AllFail(), narrative, trail, Plan, ls4);
    var ls5 := ls4.(thoughts := ls4.thoughts + [again]);
    trail := Go(env, caps, model, AllFail(), narrative, trail, Execute, ls5);
    assert !Trapped(ls5);
    var ls6 := ls5.(thoughts := ls5.thoughts + [model(5).thought], finalContent := Given(claim));
    trail := Go(env, caps, model, AllFail(), narrative, trail, Verify, ls6);
    assert FailureAt(ls6.failures, 0);
    var ls7 := Failure(ls6, "verify");
    trail := Go(env, caps, model, AllFail(), narrative, trail, Reflect, ls7);
    assert Persistent(call, claim)(7) == Says(CallTool, None);
    var ls8 := Failure(ls7.(thoughts := ls7.thoughts + [Says(CallTool, None).thought], reflectionsUsed := 2), "");
    trail := Go(env, caps, model, AllFail(), narrative, trail, Done, ls8);
    assert RejectsAt(trail, 5);
    result := Report(trail[8]);
  }
}
