/** The per-step worker loop (internal/agent/worker.go, reactLoop): its budgets, the
    repeated-call breaker, the evidence nudge and the conversation it grows. */
module Worker {
  import opened Base
  import opened Messages

  datatype Reply = CallFailed | NilReply | Answer(content: string, calls: seq<ToolCall>)

  datatype ActResult = Output(text: string) | ActError(err: string)

  /** What the loop cannot see into. The conversation grows with every use, so letting the
      model and the tools depend on it covers every sequence of answers. */
  datatype Env = Env(
    model: seq<Message> -> Reply,
    act: (seq<Message>, ToolCall) -> ActResult,
    intercept: string -> seq<ToolCall>,
    nudgeText: string -> string)

  /** The step's facts: its tool hint and whether it is meant to create files. */
  datatype Task = Task(hint: string, createsFiles: bool)

  datatype Limits = Limits(maxIterations: nat, maxToolCalls: nat)

  predicate NeedsEvidence(task: Task) {
    TrimSpace(task.hint) != "" || task.createsFiles
  }

  const NO_EVIDENCE := "[no tool evidence — answer is from model memory] "

  function Observation(env: Env, messages: seq<Message>, call: ToolCall): string {
    match env.act(messages, call)
    case Output(text) => text
    case ActError(err) => "[tool " + call.name + " error: " + err + "]"
  }

  function InterceptObservation(env: Env, messages: seq<Message>, call: ToolCall): string {
    match env.act(messages, call)
    case Output(text) => text
    case ActError(err) => "[interceptor write failed: " + err + "]"
  }

  /** The conversation after running the calls one by one, each answered under its own ID. */
  function Answered(env: Env, messages: seq<Message>, calls: seq<ToolCall>): seq<Message> {
    if calls == [] then messages
    else
      var before := Answered(env, messages, calls[..|calls| - 1]);
      var call := calls[|calls| - 1];
      before + [ToolMessage(call.id, Observation(env, before, call))]
  }

  function Intercepted(env: Env, messages: seq<Message>, calls: seq<ToolCall>): seq<Message> {
    if calls == [] then messages
    else
      var before := Intercepted(env, messages, calls[..|calls| - 1]);
      var call := calls[|calls| - 1];
      before + [ToolMessage(call.id, InterceptObservation(env, before, call))]
  }

  /** What one model call added to the conversation. */
  datatype Turn =
    | Nudged(answer: string, hint: string)
    | AutoWrote(calls: seq<ToolCall>)
    | Called(content: string, calls: seq<ToolCall>, executed: nat)   // the first executed calls were run

  function AfterTurn(env: Env, messages: seq<Message>, turn: Turn): seq<Message> {
    match turn
    case Nudged(answer, hint) => messages + [AssistantMessage(answer, []), UserMessage(env.nudgeText(hint))]
    case AutoWrote(calls) => Intercepted(env, messages, calls)
    case Called(content, calls, n) =>
      Answered(env, messages + [AssistantMessage(content, calls)], calls[..if n <= |calls| then n else |calls|])
  }

  function AfterTurns(env: Env, messages: seq<Message>, turns: seq<Turn>): seq<Message> {
    if turns == [] then messages
    else AfterTurn(env, AfterTurns(env, messages, turns[..|turns| - 1]), turns[|turns| - 1])
  }

  /** The model-requested calls that were run, in order. */
  function ExecutedIn(turn: Turn): seq<ToolCall> {
    match turn
    case Called(_, calls, n) => calls[..if n <= |calls| then n else |calls|]
    case _ => []
  }

  function Executed(turns: seq<Turn>): seq<ToolCall> {
    if turns == [] then [] else Executed(turns[..|turns| - 1]) + ExecutedIn(turns[|turns| - 1])
  }

  function Nudges(turns: seq<Turn>): nat {
    if turns == [] then 0 else Nudges(turns[..|turns| - 1]) + if turns[|turns| - 1].Nudged? then 1 else 0
  }

  /** Tool runs of a turn, requested or on the model's behalf. */
  function UsesIn(turn: Turn): nat {
    match turn case AutoWrote(calls) => |calls| case _ => |ExecutedIn(turn)|
  }

  function ToolUses(turns: seq<Turn>): nat {
    if turns == [] then 0 else ToolUses(turns[..|turns| - 1]) + UsesIn(turns[|turns| - 1])
  }

  /** All calls of the turn were run. */
  predicate Complete(turn: Turn) {
    turn.Called? ==> turn.executed == |turn.calls|
  }

  function Signature(call: ToolCall): string {
    call.name + ":" + call.args
  }

  /** What the breaker takes for the same call: the same name and arguments as one text. */
  predicate SameCall(a: ToolCall, b: ToolCall) {
    Signature(a) == Signature(b)
  }

  predicate TripleAt(calls: seq<ToolCall>, i: nat)
    requires i + 2 < |calls|
  {
    SameCall(calls[i], calls[i + 1]) && SameCall(calls[i + 1], calls[i + 2])
  }

  /** No three consecutive calls are the same. */
  predicate NoTriple(calls: seq<ToolCall>) {
    forall i {:trigger TripleAt(calls, i)} | 0 <= i < |calls| - 2 :: !TripleAt(calls, i)
  }

  predicate EndsInTriple(calls: seq<ToolCall>) {
    |calls| >= 3 && TripleAt(calls, |calls| - 3)
  }

  /** In particular none with the same name and the same arguments. */
  lemma {:induction false} NoRepeatedCall(calls: seq<ToolCall>, i: nat)
    requires NoTriple(calls) && i + 2 < |calls|
    ensures !(calls[i].name == calls[i + 1].name == calls[i + 2].name &&
            calls[i].args == calls[i + 1].args == calls[i + 2].args)
  {
    assert !TripleAt(calls, i);
  }

  // ---- When the breaker takes different calls for the same ----

  /** a's name carries the beginning of b's arguments behind a colon. */
  ghost predicate Shifted(a: ToolCall, b: ToolCall) {
    |a.name| > |b.name| && a.name[..|b.name| + 1] == b.name + ":" && b.args == a.name[|b.name| + 1..] + ":" + a.args
  }

  predicate Identical(a: ToolCall, b: ToolCall) {
    a.name == b.name && a.args == b.args
  }

  /** Exactly the identical calls, and those that differ in where the colon falls, are taken
      for the same. */
  lemma {:induction false} SameCallIff(a: ToolCall, b: ToolCall)
    ensures SameCall(a, b) <==> Identical(a, b) || Shifted(a, b) || Shifted(b, a)
  {
    if |a.name| == |b.name| {
      SignatureParts(a);
      SignatureParts(b);
    } else if |a.name| > |b.name| {
      LongerName(a, b);
    } else {
      LongerName(b, a);
    }
  }

  lemma {:induction false} SignatureParts(a: ToolCall)
    ensures Signature(a)[..|a.name|] == a.name && Signature(a)[|a.name| + 1..] == a.args
  {
  }

  lemma {:induction false} LongerName(a: ToolCall, b: ToolCall)
    requires |a.name| > |b.name|
    ensures SameCall(a, b) <==> Shifted(a, b)
  {
    var k := |b.name| + 1;
    assert Signature(a) == a.name[..k] + (a.name[k..] + ":" + a.args);
    assert Signature(b) == (b.name + ":") + b.args;
    if SameCall(a, b) {
      assert Signature(a)[..k] == a.name[..k] && Signature(b)[..k] == b.name + ":";
      assert Signature(a)[k..] == a.name[k..] + ":" + a.args && Signature(b)[k..] == b.args;
    }
  }

  /** Two different calls that the breaker takes for the same, whatever the texts. */
  lemma {:induction false} DifferentCallsTaken(first: string, second: string, x: string, y: string, z: string)
    ensures var a, b := ToolCall(first, x + ":" + y, z), ToolCall(second, x, y + ":" + z);
            SameCall(a, b) && a.name != b.name
  {
    var a, b := ToolCall(first, x + ":" + y, z), ToolCall(second, x, y + ":" + z);
    assert Signature(a) == x + (":" + (y + (":" + z))) == Signature(b);
  }

  lemma {:induction false} ShiftedHasColon(a: ToolCall, b: ToolCall)
    ensures Shifted(a, b) ==> ':' in a.name
  {
    if Shifted(a, b) {
      assert a.name[|b.name|] == (b.name + ":")[|b.name|];
    }
  }

  /** Tool names without a colon cannot be confused. */
  lemma {:induction false} PlainNamesDiffer(a: ToolCall, b: ToolCall)
    requires ':' !in a.name && ':' !in b.name
    ensures SameCall(a, b) <==> Identical(a, b)
  {
    SameCallIff(a, b);
    ShiftedHasColon(a, b);
    ShiftedHasColon(b, a);
  }

  ghost predicate PlainNames(calls: seq<ToolCall>) {
    forall c | c in calls :: ':' !in c.name
  }

  /** The last two calls are this very one. */
  predicate ThirdIdentical(history: seq<ToolCall>, call: ToolCall) {
    |history| >= 2 && Identical(history[|history| - 2], call) && Identical(history[|history| - 1], call)
  }

  /** With such names the breaker counts three in a row exactly for three identical calls. */
  lemma {:induction false} PlainTriple(history: seq<ToolCall>, call: ToolCall)
    requires PlainNames(history + [call])
    ensures EndsInTriple(history + [call]) <==> ThirdIdentical(history, call)
  {
    var all, n := history + [call], |history|;
    if n >= 2 {
      assert all[n - 2] in all && all[n - 1] in all && all[n] in all;
      PlainNamesDiffer(all[n - 2], all[n - 1]);
      PlainNamesDiffer(all[n - 1], all[n]);
    }
  }

  predicate SignedAt(calls: seq<ToolCall>, i: nat, sig: string)
    requires i < |calls|
  {
    Signature(calls[i]) == sig
  }

  /** repeat counts how often the last signature was run in a row. */
  predicate BreakerState(calls: seq<ToolCall>, lastSig: string, repeat: nat) {
    && repeat <= 2 && repeat <= |calls| && (repeat == 0 <==> calls == [])
    && (calls == [] ==> lastSig == "")
    && (forall i {:trigger SignedAt(calls, i, lastSig)} | |calls| - repeat <= i < |calls| ::
       SignedAt(calls, i, lastSig))
    && (0 < repeat < |calls| ==> Signature(calls[|calls| - repeat - 1]) != lastSig)
  }

  lemma {:induction false} BreakerStep(calls: seq<ToolCall>, lastSig: string, repeat: nat, call: ToolCall, repeat': nat)
    requires BreakerState(calls, lastSig, repeat)
    requires repeat' == if Signature(call) == lastSig then repeat + 1 else 1
    ensures repeat' >= 3 <==> EndsInTriple(calls + [call])
    ensures repeat' < 3 ==> BreakerState(calls + [call], Signature(call), repeat')
  {
    var calls', n := calls + [call], |calls|;
    assert Signature(call) != "";
    assert repeat >= 1 ==> SignedAt(calls, n - 1, lastSig);
    assert repeat >= 2 ==> SignedAt(calls, n - 2, lastSig);
    if repeat' < 3 {
      forall i | n + 1 - repeat' <= i < n + 1 ensures SignedAt(calls', i, Signature(call)) {
        assert i < n ==> SignedAt(calls, i, lastSig);
      }
    }
  }

  // ---- The conversation ----

  lemma {:induction false} AnsweredExtends(env: Env, messages: seq<Message>, calls: seq<ToolCall>)
    ensures messages <= Answered(env, messages, calls) && |Answered(env, messages, calls)| == |messages| + |calls|
  {
    if calls != [] {
      AnsweredExtends(env, messages, calls[..|calls| - 1]);
    }
  }

  lemma {:induction false} PrefixOfPrefix<T>(a: seq<T>, b: seq<T>, c: seq<T>)
    requires a <= b && b <= c
    ensures a <= c
  {
    assert c == a + (b[|a|..] + c[|b|..]);
  }

  /** After what comes before it, the conversation answers the call. */
  predicate Answers(env: Env, grown: seq<Message>, before: seq<Message>, call: ToolCall) {
    before + [ToolMessage(call.id, Observation(env, before, call))] <= grown
  }

  lemma {:induction false} AnsweredSplit(env: Env, messages: seq<Message>, a: seq<ToolCall>, b: seq<ToolCall>)
    ensures Answered(env, messages, a + b) == Answered(env, Answered(env, messages, a), b)
  {
    if b == [] {
      assert a + b == a;
    } else {
      var n := |b| - 1;
      assert (a + b)[..|a + b| - 1] == a + b[..n];
      AnsweredSplit(env, messages, a, b[..n]);
    }
  }

  lemma {:induction false} AnsweredOne(env: Env, messages: seq<Message>, call: ToolCall)
    ensures Answered(env, messages, [call]) == messages + [ToolMessage(call.id, Observation(env, messages, call))]
  {
    assert [call][..0] == [];
  }

  lemma {:induction false} AnsweredNext(env: Env, messages: seq<Message>, calls: seq<ToolCall>, i: nat)
    requires i < |calls|
    ensures var before := Answered(env, messages, calls[..i]);
            Answered(env, messages, calls[..i + 1]) == before +
              [ToolMessage(calls[i].id, Observation(env, before, calls[i]))]
  {
    assert calls[..i + 1] == calls[..i] + [calls[i]];
    AnsweredSplit(env, messages, calls[..i], [calls[i]]);
    AnsweredOne(env, Answered(env, messages, calls[..i]), calls[i]);
  }

  /** Running calls appends one tool message per call, in order, under the call's own ID. */
  lemma {:induction false} AnsweredInOrder(env: Env, messages: seq<Message>, calls: seq<ToolCall>, i: nat)
    requires i < |calls|
    ensures |Answered(env, messages, calls[..i])| == |messages| + i
    ensures Answers(env, Answered(env, messages, calls), Answered(env, messages, calls[..i]), calls[i])
  {
    var front, call, back := calls[..i], calls[i], calls[i + 1..];
    assert calls == front + ([call] + back);
    AnsweredExtends(env, messages, front);
    var before := Answered(env, messages, front);
    AnsweredSplit(env, messages, front, [call] + back);
    AnsweredSplit(env, before, [call], back);
    AnsweredOne(env, before, call);
    AnsweredExtends(env, Answered(env, before, [call]), back);
  }

  lemma {:induction false} InterceptedExtends(env: Env, messages: seq<Message>, calls: seq<ToolCall>)
    ensures messages <= Intercepted(env, messages, calls)
  {
    if calls != [] {
      InterceptedExtends(env, messages, calls[..|calls| - 1]);
    }
  }

  lemma {:induction false} TurnExtends(env: Env, messages: seq<Message>, turn: Turn)
    ensures messages <= AfterTurn(env, messages, turn)
  {
    match turn {
      case Nudged(_, _) =>
      case AutoWrote(calls) => InterceptedExtends(env, messages, calls);
      case Called(content, calls, n) =>
        AnsweredExtends(env, messages + [AssistantMessage(content, calls)], ExecutedIn(turn));
    }
  }

  /** Turns only append to the conversation. */
  lemma {:induction false} TurnsExtend(env: Env, messages: seq<Message>, turns: seq<Turn>)
    ensures messages <= AfterTurns(env, messages, turns)
  {
    if turns != [] {
      TurnsExtend(env, messages, turns[..|turns| - 1]);
      TurnExtends(env, AfterTurns(env, messages, turns[..|turns| - 1]), turns[|turns| - 1]);
    }
  }

  /** After what comes before it, the reply stands in the conversation, and the i-th of its
      calls is answered right after those before it. */
  predicate Replied(env: Env, grown: seq<Message>, before: seq<Message>, turn: Turn, i: nat)
    requires turn.Called? && i < |turn.calls|
  {
    var asked := before + [AssistantMessage(turn.content, turn.calls)];
    && asked <= grown && |Answered(env, asked, turn.calls[..i])| == |asked| + i
    && Answers(env, grown, Answered(env, asked, turn.calls[..i]), turn.calls[i])
  }

  lemma {:induction false} TurnReplied(env: Env, before: seq<Message>, turn: Turn, i: nat)
    requires turn.Called? && i < |ExecutedIn(turn)|
    ensures Replied(env, AfterTurn(env, before, turn), before, turn, i)
  {
    var asked, calls := before + [AssistantMessage(turn.content, turn.calls)], ExecutedIn(turn);
    assert calls[..i] == turn.calls[..i];
    AnsweredInOrder(env, asked, calls, i);
    AnsweredExtends(env, asked, calls);
  }

  lemma {:induction false} RepliedStays(env: Env, grown: seq<Message>, more: seq<Message>, before: seq<Message>,
                                        turn: Turn, i: nat)
    requires turn.Called? && i < |turn.calls| && Replied(env, grown, before, turn, i) && grown <= more
    ensures Replied(env, more, before, turn, i)
  {
    var asked, call := before + [AssistantMessage(turn.content, turn.calls)], turn.calls[i];
    var answered := Answered(env, asked, turn.calls[..i]);
    PrefixOfPrefix(asked, grown, more);
    PrefixOfPrefix(answered + [ToolMessage(call.id, Observation(env, answered, call))], grown, more);
  }

  lemma {:induction false} TakeTurn(env: Env, messages: seq<Message>, turns: seq<Turn>, k: nat)
    requires k < |turns|
    ensures AfterTurns(env, messages, turns[..k + 1]) == AfterTurn(env, AfterTurns(env, messages, turns[..k]), turns[k])
  {
    assert turns[..k + 1][..k] == turns[..k];
  }

  lemma {:induction false} TurnsGrow(env: Env, messages: seq<Message>, turns: seq<Turn>, k: nat, j: nat)
    requires k <= j <= |turns|
    ensures AfterTurns(env, messages, turns[..k]) <= AfterTurns(env, messages, turns[..j])
    decreases j
  {
    if k < j {
      TurnsGrow(env, messages, turns, k, j - 1);
      TakeTurn(env, messages, turns, j - 1);
      TurnExtends(env, AfterTurns(env, messages, turns[..j - 1]), turns[j - 1]);
      PrefixOfPrefix(AfterTurns(env, messages, turns[..k]), AfterTurns(env, messages, turns[..j - 1]),
        AfterTurns(env, messages, turns[..j]));
    }
  }

  /** At the end of a run every call that was run, in any turn, is answered under its own ID, in
      order, after the reply that asked for it. */
  lemma {:induction false} EveryCallAnswered(env: Env, messages: seq<Message>, turns: seq<Turn>, k: nat, i: nat)
    requires k < |turns| && turns[k].Called? && i < |ExecutedIn(turns[k])|
    ensures Replied(env, AfterTurns(env, messages, turns), AfterTurns(env, messages, turns[..k]), turns[k], i)
  {
    var before := AfterTurns(env, messages, turns[..k]);
    assert turns[..|turns|] == turns;
    TurnsGrow(env, messages, turns, k + 1, |turns|);
    TakeTurn(env, messages, turns, k);
    TurnReplied(env, before, turns[k], i);
    RepliedStays(env, AfterTurn(env, before, turns[k]), AfterTurns(env, messages, turns), before, turns[k], i);
  }

  // ---- What a run of the loop is ----

  datatype Ending = Accepted | BudgetHit | Repeated | IterationCap | Errored

  /** The call at i is not run: it would exceed the budget, or be the third of the same in a row. */
  predicate StopsAt(limits: Limits, uses: nat, history: seq<ToolCall>, calls: seq<ToolCall>, i: nat)
    requires i < |calls|
  {
    uses + i + 1 > limits.maxToolCalls || EndsInTriple(history + calls[..i + 1])
  }

  /** The first call from i on that is not run. */
  function FirstStop(limits: Limits, uses: nat, history: seq<ToolCall>, calls: seq<ToolCall>, i: nat): (n: nat)
    requires i <= |calls|
    ensures i <= n <= |calls|
    decreases |calls| - i
  {
    if i == |calls| || StopsAt(limits, uses, history, calls, i) then i
    else FirstStop(limits, uses, history, calls, i + 1)
  }

  /** How many of a reply's calls run, after so many tool uses and this history of calls. */
  function RunLength(limits: Limits, uses: nat, history: seq<ToolCall>, calls: seq<ToolCall>): (n: nat)
    ensures n <= |calls|
  {
    FirstStop(limits, uses, history, calls, 0)
  }

  /** A reply's text as a finding. */
  function Finding(content: string): string {
    if TrimSpace(content) == "" then "[step produced no output]" else TrimSpace(content)
  }

  function LastWords(messages: seq<Message>): string {
    var out := if |messages| > 0 then messages[|messages| - 1].content else "";
    if TrimSpace(out) == "" then "[step did not produce a final finding]" else out
  }

  datatype Continuation = Go(turn: Turn) | Stop(ending: Ending, out: string)

  /** What follows a reply without tool calls. */
  function AfterAnswer(env: Env, task: Task, turns: seq<Turn>, content: string): Continuation {
    var out := Finding(content);
    var shown := if task.createsFiles && Nudges(turns) == 0 then env.intercept(out) else [];
    if shown != [] then Go(AutoWrote(shown))
    else if turns == [] && NeedsEvidence(task) then
      Go(Nudged(out, if TrimSpace(task.hint) == "" then "file" else TrimSpace(task.hint)))
    else Stop(Accepted, if Nudges(turns) > 0 && NeedsEvidence(task) && ToolUses(turns) == 0 then NO_EVIDENCE + out
    else out)
  }

  /** The one continuation that the turns so far allow. */
  function Next(env: Env, task: Task, limits: Limits, messages: seq<Message>, turns: seq<Turn>): Continuation {
    if turns != [] && !Complete(turns[|turns| - 1]) then
      if ToolUses(turns) + 1 > limits.maxToolCalls then Stop(BudgetHit, "[partial: step hit tool budget]")
      else Stop(Repeated, "[circuit breaker: step stopped]")
    else if |turns| >= limits.maxIterations then Stop(IterationCap, LastWords(AfterTurns(env, messages, turns)))
    else
      match env.model(AfterTurns(env, messages, turns))
      case Answer(content, calls) =>
        if calls == [] then AfterAnswer(env, task, turns, content)
        else Go(Called(content, calls, RunLength(limits, ToolUses(turns), Executed(turns), calls)))
      case _ => Stop(Errored, "")
  }

  ghost predicate Fits(env: Env, task: Task, limits: Limits, messages: seq<Message>, turns: seq<Turn>, k: nat)
    requires k < |turns|
  {
    Next(env, task, limits, messages, turns[..k]) == Go(turns[k])
  }

  /** Every turn is what the model's reply to the conversation before it calls for. */
  ghost predicate Follows(env: Env, task: Task, limits: Limits, messages: seq<Message>, turns: seq<Turn>) {
    forall k {:trigger Fits(env, task, limits, messages, turns, k)} | 0 <= k < |turns| ::
      Fits(env, task, limits, messages, turns, k)
  }

  lemma {:induction false} AddFollows(env: Env, task: Task, limits: Limits, messages: seq<Message>, turns: seq<Turn>,
                                      turn: Turn)
    requires Follows(env, task, limits, messages, turns) && Next(env, task, limits, messages, turns) == Go(turn)
    ensures Follows(env, task, limits, messages, turns + [turn])
  {
    var all := turns + [turn];
    forall k | 0 <= k < |all| ensures Fits(env, task, limits, messages, all, k) {
      assert all[..k] == turns[..k];
      if k < |turns| {
        assert Fits(env, task, limits, messages, turns, k);
      } else {
        assert turns[..k] == turns;
      }
    }
  }

  lemma {:induction false} SharePrefix(env: Env, task: Task, limits: Limits, messages: seq<Message>, a: seq<Turn>,
                                       b: seq<Turn>, k: nat)
    requires Follows(env, task, limits, messages, a) && Follows(env, task, limits, messages, b) && k <= |a| <= |b|
    ensures a[..k] == b[..k]
  {
    if k > 0 {
      SharePrefix(env, task, limits, messages, a, b, k - 1);
      assert Fits(env, task, limits, messages, a, k - 1) && Fits(env, task, limits, messages, b, k - 1);
      assert a[..k] == a[..k - 1] + [a[k - 1]] && b[..k] == b[..k - 1] + [b[k - 1]];
    }
  }

  /** The model, the tools and the limits determine the run. */
  lemma {:induction false} OneRun(env: Env, task: Task, limits: Limits, messages: seq<Message>, a: seq<Turn>,
                                  b: seq<Turn>)
    requires Follows(env, task, limits, messages, a) && Next(env, task, limits, messages, a).Stop?
    requires Follows(env, task, limits, messages, b) && Next(env, task, limits, messages, b).Stop?
    ensures a == b
    decreases |a| > |b|
  {
    if |a| > |b| {
      OneRun(env, task, limits, messages, b, a);
    } else {
      SharePrefix(env, task, limits, messages, a, b, |a|);
      assert a[..|a|] == a;
      assert |a| < |b| ==> Fits(env, task, limits, messages, b, |a|);
      assert b[..|a|] == b;
    }
  }

  predicate CompleteAt(turns: seq<Turn>, i: nat)
    requires i < |turns|
  {
    Complete(turns[i])
  }

  /** All calls of the first n turns were run. */
  ghost predicate FirstComplete(turns: seq<Turn>, n: int)
    requires n <= |turns|
  {
    forall i {:trigger CompleteAt(turns, i)} | 0 <= i < n :: CompleteAt(turns, i)
  }

  /** How one more turn adds to everything that is counted over turns. */
  lemma {:induction false} AddTurn(env: Env, messages: seq<Message>, turns: seq<Turn>, turn: Turn)
    ensures AfterTurns(env, messages, turns + [turn]) == AfterTurn(env, AfterTurns(env, messages, turns), turn)
    ensures Executed(turns + [turn]) == Executed(turns) + ExecutedIn(turn)
    ensures Nudges(turns + [turn]) == Nudges(turns) + (if turn.Nudged? then 1 else 0)
    ensures ToolUses(turns + [turn]) == ToolUses(turns) + UsesIn(turn)
  {
    var all := turns + [turn];
    assert all[..|turns|] == turns;
  }

  // ---- What every run keeps ----

  lemma {:induction false} NoStopBefore(limits: Limits, uses: nat, history: seq<ToolCall>, calls: seq<ToolCall>,
                                        i: nat, j: nat)
    requires i <= j < |calls| && j < FirstStop(limits, uses, history, calls, i)
    ensures !StopsAt(limits, uses, history, calls, j)
    decreases j - i
  {
    if i < j {
      NoStopBefore(limits, uses, history, calls, i + 1, j);
    }
  }

  lemma {:induction false} OneMoreCall(calls: seq<ToolCall>, call: ToolCall)
    requires NoTriple(calls) && !EndsInTriple(calls + [call])
    ensures NoTriple(calls + [call])
  {
    var all := calls + [call];
    forall i | 0 <= i < |all| - 2 ensures !TripleAt(all, i) {
      if i < |all| - 3 {
        assert !TripleAt(calls, i);
        assert all[i] == calls[i] && all[i + 1] == calls[i + 1] && all[i + 2] == calls[i + 2];
      }
    }
  }

  /** The calls of a reply that are run complete no triple and keep to the budget. */
  lemma {:induction false} RunKeepsToLimits(limits: Limits, uses: nat, history: seq<ToolCall>, calls: seq<ToolCall>,
                                            n: nat)
    requires NoTriple(history) && n <= RunLength(limits, uses, history, calls)
    ensures NoTriple(history + calls[..n]) && (n > 0 ==> uses + n <= limits.maxToolCalls)
    decreases n
  {
    if n == 0 {
      assert history + calls[..0] == history;
    } else {
      RunKeepsToLimits(limits, uses, history, calls, n - 1);
      NoStopBefore(limits, uses, history, calls, 0, n - 1);
      assert history + calls[..n] == (history + calls[..n - 1]) + [calls[n - 1]];
      OneMoreCall(history + calls[..n - 1], calls[n - 1]);
    }
  }

  ghost predicate Kept(limits: Limits, turns: seq<Turn>) {
    && |turns| <= limits.maxIterations && FirstComplete(turns, |turns| - 1) && Nudges(turns) <= 1
    && NoTriple(Executed(turns)) && |Executed(turns)| <= limits.maxToolCalls && |Executed(turns)| <= ToolUses(turns)
    && (turns != [] && Complete(turns[|turns| - 1]) ==> Nudges(turns) > 0 || ToolUses(turns) > 0)
  }

  lemma {:induction false} FrontFollows(env: Env, task: Task, limits: Limits, messages: seq<Message>, turns: seq<Turn>)
    requires Follows(env, task, limits, messages, turns) && turns != []
    ensures Follows(env, task, limits, messages, turns[..|turns| - 1])
  {
    var front := turns[..|turns| - 1];
    forall k | 0 <= k < |front| ensures Fits(env, task, limits, messages, front, k) {
      assert front[..k] == turns[..k] && Fits(env, task, limits, messages, turns, k);
    }
  }

  lemma {:induction false} FollowsKept(env: Env, task: Task, limits: Limits, messages: seq<Message>, turns: seq<Turn>)
    requires Follows(env, task, limits, messages, turns)
    ensures Kept(limits, turns)
    decreases |turns|
  {
    if turns != [] {
      var n := |turns| - 1;
      var front, last := turns[..n], turns[n];
      assert turns == front + [last];
      FrontFollows(env, task, limits, messages, turns);
      FollowsKept(env, task, limits, messages, front);
      assert Fits(env, task, limits, messages, turns, n);
      NextMayFollow(env, task, limits, messages, front, last);
      TurnKept(env, limits, messages, front, last);
    }
  }

  lemma {:induction false} AddComplete(turns: seq<Turn>, turn: Turn)
    requires FirstComplete(turns, |turns| - 1) && (turns != [] ==> Complete(turns[|turns| - 1]))
    ensures FirstComplete(turns + [turn], |turns|)
  {
    var all := turns + [turn];
    forall i | 0 <= i < |turns| ensures CompleteAt(all, i) {
      assert i < |turns| - 1 ==> CompleteAt(turns, i);
    }
  }

  /** What the next turn of a run can be. */
  ghost predicate MayFollow(limits: Limits, turns: seq<Turn>, turn: Turn) {
    && |turns| < limits.maxIterations && (turns != [] ==> Complete(turns[|turns| - 1]))
    && match turn
       case Called(_, calls, n) => calls != [] && n == RunLength(limits, ToolUses(turns), Executed(turns), calls)
       case Nudged(_, _) => turns == []
       case AutoWrote(calls) => calls != []
  }

  lemma {:induction false} NextMayFollow(env: Env, task: Task, limits: Limits, messages: seq<Message>,
                                         turns: seq<Turn>, turn: Turn)
    requires Next(env, task, limits, messages, turns) == Go(turn)
    ensures MayFollow(limits, turns, turn)
  {
  }

  lemma {:induction false} TurnKept(env: Env, limits: Limits, messages: seq<Message>, turns: seq<Turn>, turn: Turn)
    requires Kept(limits, turns) && MayFollow(limits, turns, turn)
    ensures Kept(limits, turns + [turn])
  {
    AddTurn(env, messages, turns, turn);
    AddComplete(turns, turn);
    match turn {
      case Called(_, calls, n) =>
        RunKeepsToLimits(limits, ToolUses(turns), Executed(turns), calls, n);
      case _ =>
        assert Executed(turns) + [] == Executed(turns);
    }
  }

  /** A run of the loop and what it returns. */
  ghost predicate RunBy(env: Env, task: Task, limits: Limits, messages: seq<Message>, turns: seq<Turn>,
                        grown: seq<Message>, out: string, ending: Ending) {
    && Follows(env, task, limits, messages, turns) && Next(env, task, limits, messages, turns) == Stop(ending, out)
    && grown == AfterTurns(env, messages, turns)
  }

  ghost predicate RunGives(env: Env, task: Task, limits: Limits, messages: seq<Message>, grown: seq<Message>,
                           out: string, ending: Ending) {
    exists turns :: RunBy(env, task, limits, messages, turns, grown, out, ending)
  }

  /** One model call a turn, and one more for a reply that ends the run at once. */
  function ModelCalls(turns: seq<Turn>, ending: Ending): nat {
    |turns| + if ending == Accepted || ending == Errored then 1 else 0
  }

  /** Every run: at most maxIterations model calls and maxToolCalls requested calls run, never
      three of the same in a row, at most one nudge; the input conversation is extended turn by
      turn, a reply's calls are all run unless the run ends there, and where evidence is needed
      an answer without the tag comes only after some tool was used. */
  lemma {:induction false} RunIsBounded(env: Env, task: Task, limits: Limits, messages: seq<Message>, turns: seq<Turn>,
                                        grown: seq<Message>, out: string, ending: Ending)
    requires RunBy(env, task, limits, messages, turns, grown, out, ending)
    ensures ModelCalls(turns, ending) <= limits.maxIterations && |Executed(turns)| <= limits.maxToolCalls
    ensures NoTriple(Executed(turns)) && Nudges(turns) <= 1 && messages <= grown
    ensures FirstComplete(turns, if ending == BudgetHit || ending == Repeated then |turns| - 1 else |turns|)
    ensures ending == Accepted && NeedsEvidence(task) ==> ToolUses(turns) > 0 || HasPrefix(out, NO_EVIDENCE)
  {
    FollowsKept(env, task, limits, messages, turns);
    TurnsExtend(env, messages, turns);
    if turns != [] && Complete(turns[|turns| - 1]) {
      assert CompleteAt(turns, |turns| - 1);
    }
  }

  lemma {:induction false} RunLengthStops(limits: Limits, uses: nat, history: seq<ToolCall>, calls: seq<ToolCall>,
                                          i: nat)
    requires i <= |calls|
    ensures var n := FirstStop(limits, uses, history, calls, i);
            n < |calls| ==> StopsAt(limits, uses, history, calls, n)
    decreases |calls| - i
  {
    if i < |calls| && !StopsAt(limits, uses, history, calls, i) {
      RunLengthStops(limits, uses, history, calls, i + 1);
    }
  }

  /** The call at which a turn within the budget stops completes a triple. */
  lemma {:induction false} StopCompletesTriple(limits: Limits, history: seq<ToolCall>, uses: nat, calls: seq<ToolCall>,
                                               n: nat)
    requires n == RunLength(limits, uses, history, calls) && n < |calls| && uses + n + 1 <= limits.maxToolCalls
    ensures EndsInTriple((history + calls[..n]) + [calls[n]])
  {
    RunLengthStops(limits, uses, history, calls, 0);
    assert history + calls[..n + 1] == (history + calls[..n]) + [calls[n]];
  }

  lemma {:induction false} RepeatedEndsIncomplete(env: Env, task: Task, limits: Limits, messages: seq<Message>,
                                                  turns: seq<Turn>)
    requires Follows(env, task, limits, messages, turns)
    requires Next(env, task, limits, messages, turns).Stop? &&
             Next(env, task, limits, messages, turns).ending == Repeated
    ensures turns != [] && MayFollow(limits, turns[..|turns| - 1], turns[|turns| - 1])
    ensures !Complete(turns[|turns| - 1]) && ToolUses(turns) + 1 <= limits.maxToolCalls
  {
    assert turns != [];
    assert Fits(env, task, limits, messages, turns, |turns| - 1);
    NextMayFollow(env, task, limits, messages, turns[..|turns| - 1], turns[|turns| - 1]);
  }

  /** A run that ends by the breaker was about to run a call whose two predecessors the breaker
      takes for the same; with names without a colon, a third identical call. */
  lemma {:induction false} BreakerEndsRun(env: Env, task: Task, limits: Limits, messages: seq<Message>,
                                          turns: seq<Turn>,
                                          grown: seq<Message>, out: string)
    returns (stopped: ToolCall)
    requires RunBy(env, task, limits, messages, turns, grown, out, Repeated)
    ensures EndsInTriple(Executed(turns) + [stopped])
    ensures PlainNames(Executed(turns) + [stopped]) ==> ThirdIdentical(Executed(turns), stopped)
  {
    RepeatedEndsIncomplete(env, task, limits, messages, turns);
    stopped := LastTurnStops(limits, turns[..|turns| - 1], turns[|turns| - 1]);
    if PlainNames(Executed(turns) + [stopped]) {
      PlainTriple(Executed(turns), stopped);
    }
  }

  lemma {:induction false} LastTurnStops(limits: Limits, front: seq<Turn>, turn: Turn) returns (stopped: ToolCall)
    requires MayFollow(limits, front, turn) && !Complete(turn) &&
             ToolUses(front) + UsesIn(turn) + 1 <= limits.maxToolCalls
    ensures EndsInTriple((Executed(front) + ExecutedIn(turn)) + [stopped])
  {
    stopped := turn.calls[turn.executed];
    StopCompletesTriple(limits, Executed(front), ToolUses(front), turn.calls, turn.executed);
  }

  // ---- The loop ----

  /** The loop's running state, as the source keeps it in local variables. */
  datatype Counters = Counters(toolCallsMade: nat, lastSig: string, repeat: nat)

  /** A loop in progress: the counters agree with the turns taken. */
  ghost predicate LoopState(env: Env, messages: seq<Message>, grown: seq<Message>, c: Counters, nudged: bool,
                            turns: seq<Turn>) {
    && grown == AfterTurns(env, messages, turns)
    && BreakerState(Executed(turns), c.lastSig, c.repeat) && c.toolCallsMade == ToolUses(turns)
    && Nudges(turns) == (if nudged then 1 else 0)
    && (turns != [] ==> Complete(turns[|turns| - 1]))
  }

  /** The counters after the first i calls of a reply were run. */
  ghost predicate Counted(limits: Limits, uses: nat, history: seq<ToolCall>, calls: seq<ToolCall>, c: Counters,
                          i: nat) {
    && i <= |calls| && c.toolCallsMade == uses + i && BreakerState(history + calls[..i], c.lastSig, c.repeat)
    && RunLength(limits, uses, history, calls) == FirstStop(limits, uses, history, calls, i)
  }

  lemma {:induction false} NextCall(limits: Limits, uses: nat, history: seq<ToolCall>, calls: seq<ToolCall>,
                                    c: Counters, i: nat, repeat: nat)
    requires Counted(limits, uses, history, calls, c, i) && i < |calls|
    requires repeat == if Signature(calls[i]) == c.lastSig then c.repeat + 1 else 1
    ensures if c.toolCallsMade + 1 > limits.maxToolCalls || repeat >= 3 then
            i == RunLength(limits, uses, history, calls)
            else Counted(limits, uses, history, calls, Counters(c.toolCallsMade + 1, Signature(calls[i]), repeat), i +
              1)
  {
    var executed := history + calls[..i];
    assert history + calls[..i + 1] == executed + [calls[i]];
    BreakerStep(executed, c.lastSig, c.repeat, calls[i], repeat);
    assert StopsAt(limits, uses, history, calls, i) <==> c.toolCallsMade + 1 > limits.maxToolCalls || repeat >= 3;
  }

  /** Runs the calls of one reply until they are done, the budget is hit or the breaker fires. */
  method RunCalls(env: Env, limits: Limits, messages: seq<Message>, calls: seq<ToolCall>, before: Counters,
                  ghost history: seq<ToolCall>)
    returns (grown: seq<Message>, after: Counters, n: nat, ending: Ending)
    requires BreakerState(history, before.lastSig, before.repeat)
    ensures n == RunLength(limits, before.toolCallsMade, history, calls) && grown == Answered(env, messages, calls[..n])
    ensures Counted(limits, before.toolCallsMade, history, calls, after, n)
    ensures ending == if n == |calls| then Accepted
            else if after.toolCallsMade + 1 > limits.maxToolCalls then BudgetHit else Repeated
  {
    grown, after := messages, before;
    assert history + calls[..0] == history;
    for i := 0 to |calls|
      invariant Counted(limits, before.toolCallsMade, history, calls, after, i)
      invariant grown == Answered(env, messages, calls[..i])
    {
      var call := calls[i];
      var sig := Signature(call);
      var repeat := if sig == after.lastSig then after.repeat + 1 else 1;
      NextCall(limits, before.toolCallsMade, history, calls, after, i, repeat);
      if after.toolCallsMade + 1 > limits.maxToolCalls {
        return grown, after, i, BudgetHit;
      }
      if repeat >= 3 {
        return grown, after, i, Repeated;
      }
      AnsweredNext(env, messages, calls, i);
      after := Counters(after.toolCallsMade + 1, sig, repeat);
      grown := grown + [ToolMessage(call.id, Observation(env, grown, call))];
    }
    return grown, after, |calls|, Accepted;
  }

  /** Writes the files of code blocks the model only showed. */
  method AutoWrite(env: Env, messages: seq<Message>, calls: seq<ToolCall>) returns (grown: seq<Message>)
    ensures grown == Intercepted(env, messages, calls)
  {
    grown := messages;
    for i := 0 to |calls|
      invariant grown == Intercepted(env, messages, calls[..i])
    {
      assert calls[..i + 1][..i] == calls[..i];
      grown := grown + [ToolMessage(calls[i].id, InterceptObservation(env, grown, calls[i]))];
    }
    assert calls[..|calls|] == calls;
  }

  lemma {:induction false} AddUncalled(env: Env, messages: seq<Message>, grown: seq<Message>, c: Counters, nudged: bool,
                                       turns: seq<Turn>, turn: Turn)
    requires LoopState(env, messages, grown, c, nudged, turns) && !turn.Called? && !(turn.Nudged? && nudged)
    ensures LoopState(env, messages, AfterTurn(env, grown, turn), c.(toolCallsMade := c.toolCallsMade + UsesIn(turn)),
                      nudged || turn.Nudged?, turns + [turn])
  {
    AddTurn(env, messages, turns, turn);
    assert Executed(turns) + [] == Executed(turns);
  }

  /** A reply without tool calls: auto-writes shown code, nudges for evidence, or accepts. */
  method TakeAnswer(env: Env, task: Task, content: string, iter: nat, ghost messages: seq<Message>,
                    before: seq<Message>, c: Counters, nudged: bool, ghost turns: seq<Turn>)
    returns (accepted: bool, out: string, grown: seq<Message>, c': Counters, nudged': bool, ghost turn: Turn)
    requires LoopState(env, messages, before, c, nudged, turns) && |turns| == iter
    ensures if accepted then AfterAnswer(env, task, turns, content) == Stop(Accepted, out) && grown == before
            else AfterAnswer(env, task, turns, content).Go?
    ensures !accepted ==>
              && AfterAnswer(env, task, turns, content).turn == turn
              && LoopState(env, messages, grown, c', nudged', turns + [turn])
  {
    accepted, grown, c', nudged', turn := false, before, c, nudged, AutoWrote([]);
    out := TrimSpace(content);
    if out == "" {
      out := "[step produced no output]";
    }
    var synthCalls := if task.createsFiles && !nudged then env.intercept(out) else [];
    if |synthCalls| > 0 {
      turn := AutoWrote(synthCalls);
      AddUncalled(env, messages, before, c, nudged, turns, turn);
      grown := AutoWrite(env, before, synthCalls);
      c' := c.(toolCallsMade := c.toolCallsMade + |synthCalls|);
    } else if iter == 0 && NeedsEvidence(task) && !nudged {
      var nudgeHint := if TrimSpace(task.hint) == "" then "file" else TrimSpace(task.hint);
      turn := Nudged(out, nudgeHint);
      AddUncalled(env, messages, before, c, nudged, turns, turn);
      grown := before + [AssistantMessage(out, []), UserMessage(env.nudgeText(nudgeHint))];
      nudged' := true;
    } else {
      accepted := true;
      if nudged && NeedsEvidence(task) && c.toolCallsMade == 0 {
        out := NO_EVIDENCE + out;
      }
    }
  }

  /** A reply with tool calls: runs them; Accepted means the loop goes on. */
  method TakeCalls(env: Env, task: Task, limits: Limits, reply: Reply, ghost messages: seq<Message>,
                   before: seq<Message>, c: Counters, nudged: bool, ghost turns: seq<Turn>)
    returns (grown: seq<Message>, out: string, c': Counters, ending: Ending)
    requires reply.Answer? && LoopState(env, messages, before, c, nudged, turns)
    ensures var turns' := turns + [Called(reply.content, reply.calls,
            RunLength(limits, ToolUses(turns), Executed(turns), reply.calls))];
            if ending == Accepted then LoopState(env, messages, grown, c', nudged, turns')
            else (Next(env, task, limits, messages, turns') == Stop(ending, out) &&
                  grown == AfterTurns(env, messages, turns'))
  {
    var n;
    grown, c', n, ending :=
      RunCalls(env, limits, before + [AssistantMessage(reply.content, reply.calls)], reply.calls, c, Executed(turns));
    out := if ending == BudgetHit then "[partial: step hit tool budget]" else "[circuit breaker: step stopped]";
    AddTurn(env, messages, turns, Called(reply.content, reply.calls, n));
  }

  /** One iteration: the model's reply and what follows from it. */
  method TakeReply(env: Env, task: Task, limits: Limits, iter: nat, ghost messages: seq<Message>,
                   before: seq<Message>, c: Counters, nudged: bool, ghost turns: seq<Turn>)
    returns (stopped: bool, ending: Ending, out: string, grown: seq<Message>, c': Counters, nudged': bool,
             ghost turns': seq<Turn>)
    requires LoopState(env, messages, before, c, nudged, turns) && |turns| == iter < limits.maxIterations
    requires Follows(env, task, limits, messages, turns)
    ensures stopped ==> RunBy(env, task, limits, messages, turns', grown, out, ending)
    ensures !stopped ==>
              LoopState(env, messages, grown, c', nudged', turns') && Follows(env, task, limits, messages, turns')
    ensures !stopped ==> |turns'| == iter + 1
  {
    stopped, ending, out, grown, c', nudged', turns' := true, Accepted, "", before, c, nudged, turns;
    var reply := env.model(before);
    if !reply.Answer? {
      ending := Errored;
    } else if reply.calls == [] {
      ghost var turn;
      stopped, out, grown, c', nudged', turn :=
        TakeAnswer(env, task, reply.content, iter, messages, before, c, nudged, turns);
      if !stopped {
        AddFollows(env, task, limits, messages, turns, turn);
        turns' := turns + [turn];
      }
    } else {
      ghost var turn := Called(reply.content, reply.calls,
        RunLength(limits, ToolUses(turns), Executed(turns), reply.calls));
      AddFollows(env, task, limits, messages, turns, turn);
      turns' := turns + [turn];
      grown, out, c', ending := TakeCalls(env, task, limits, reply, messages, before, c, nudged, turns);
      stopped := ending != Accepted;
    }
  }

  /** reactLoop, over arbitrary models and tools: returns what the run that the model's replies
      call for returns. */
  method ReactLoop(env: Env, task: Task, limits: Limits, messages: seq<Message>)
    returns (grown: seq<Message>, out: string, ending: Ending)
    ensures RunGives(env, task, limits, messages, grown, out, ending)
  {
    grown := messages;
    ghost var turns: seq<Turn> := [];
    var c := Counters(0, "", 0);
    var nudged := false;
    for iter := 0 to limits.maxIterations
      invariant LoopState(env, messages, grown, c, nudged, turns) && |turns| == iter
      invariant Follows(env, task, limits, messages, turns)
    {
      var stopped;
      stopped, ending, out, grown, c, nudged, turns :=
        TakeReply(env, task, limits, iter, messages, grown, c, nudged, turns);
      if stopped {
        assert RunBy(env, task, limits, messages, turns, grown, out, ending);
        return grown, out, ending;
      }
    }
    out := if |grown| > 0 then grown[|grown| - 1].content else "";
    if TrimSpace(out) == "" {
      out := "[step did not produce a final finding]";
    }
    ending := IterationCap;
    assert RunBy(env, task, limits, messages, turns, grown, out, ending);
  }
}
