/** Which conversations of a worker run and its retries (internal/agent/worker.go) alternate
    when they are translated for Anthropic (internal/llm/anthropic.go). */
module WorkerAlternation {
  import opened Base
  import opened Messages
  import opened Anthropic
  import opened Alternation
  import W = Worker
  import V = Verification

  ghost predicate NudgesShow(env: W.Env) {
    forall h {:trigger env.nudgeText(h)} :: TrimSpace(env.nudgeText(h)) != ""
  }

  /** The run begins by writing the files of code that the model only showed. */
  predicate WritesFirst(env: W.Env, task: W.Task, limits: W.Limits, messages: seq<Message>) {
    var next := W.Next(env, task, limits, messages, []);
    next.Go? && next.turn.AutoWrote?
  }

  // ---- What a turn adds ----

  lemma {:induction false} SplitLast<T>(all: seq<T>) returns (front: seq<T>, last: T)
    requires all != []
    ensures front == all[..|all| - 1] && last == all[|all| - 1] && all == front + [last]
    ensures front != [] ==> front[|front| - 1] == all[|all| - 2]
  {
    front, last := all[..|all| - 1], all[|all| - 1];
  }

  lemma {:induction false} ToolMessages(env: W.Env, messages: seq<Message>, calls: seq<ToolCall>)
      returns (results: seq<Message>)
    ensures W.Answered(env, messages, calls) == messages + results && |results| == |calls|
    ensures forall m | m in results :: m.role == Tool
  {
    if calls == [] {
      results := [];
    } else {
      var n := |calls| - 1;
      var front := ToolMessages(env, messages, calls[..n]);
      var last := ToolMessage(calls[n].id, W.Observation(env, W.Answered(env, messages, calls[..n]), calls[n]));
      results := front + [last];
      assert messages + results == (messages + front) + [last];
    }
  }

  lemma {:induction false} WriteMessages(env: W.Env, messages: seq<Message>, calls: seq<ToolCall>)
      returns (results: seq<Message>)
    ensures W.Intercepted(env, messages, calls) == messages + results && |results| == |calls|
    ensures forall m | m in results :: m.role == Tool
  {
    if calls == [] {
      results := [];
    } else {
      var n := |calls| - 1;
      var front := WriteMessages(env, messages, calls[..n]);
      var last := ToolMessage(calls[n].id, W.InterceptObservation(env, W.Intercepted(env, messages, calls[..n]),
        calls[n]));
      results := front + [last];
      assert messages + results == (messages + front) + [last];
    }
  }

  lemma {:induction false} AddOne(messages: seq<Message>, m: Message)
    ensures Alternating(Turns(messages + [m])) <==>
            Alternating(Turns(messages)) && !Clashes(Opener(messages), KindOf(m))
    ensures KindOf(m) in {Calls, Result} ==> Opener(messages + [m]) == KindOf(m)
    ensures KindOf(m) == Ignored ==> Opener(messages + [m]) == Opener(messages)
    ensures KindOf(m) == UserText ==>
              Opener(messages + [m]) == if Opener(messages) == Result then Result else UserText
    ensures KindOf(m) == AssistantText && Opener(messages) !in {Calls, AssistantText} ==>
              Opener(messages + [m]) == AssistantText
  {
    assert (messages + [m])[..|messages|] == messages;
    StepAlternates(messages, m);
  }

  /** Tool results keep the alternation except directly after user text. */
  lemma {:induction false} AddResults(messages: seq<Message>, results: seq<Message>)
    requires forall m | m in results :: m.role == Tool
    ensures Alternating(Turns(messages + results)) <==>
            Alternating(Turns(messages)) && !(results != [] && Opener(messages) == UserText)
    ensures Opener(messages + results) == if results == [] then Opener(messages) else Result
  {
    if results == [] {
      assert messages + results == messages;
    } else {
      var front, last := results[..|results| - 1], results[|results| - 1];
      AddResults(messages, front);
      assert messages + results == (messages + front) + [last];
      AddOne(messages + front, last);
    }
  }

  /** The kind of the message that opens the turn which a worker's turn leaves last. */
  function EndKind(turn: W.Turn): Kind {
    match turn
    case Nudged(_, _) => UserText
    case AutoWrote(_) => Result
    case Called(_, _, n) => if n == 0 then Calls else Result
  }

  /** Between two turns a worker's conversation ends in the user's side. */
  predicate Ready(messages: seq<Message>) {
    Opener(messages) == UserText || Opener(messages) == Result
  }

  lemma {:induction false} TurnAdds(env: W.Env, limits: W.Limits, messages: seq<Message>, turns: seq<W.Turn>,
                                    turn: W.Turn)
    requires NudgesShow(env) && W.MayFollow(limits, turns, turn) && Ready(messages)
    requires turn.Nudged? ==> TrimSpace(turn.answer) != ""
    ensures Opener(W.AfterTurn(env, messages, turn)) == EndKind(turn)
    ensures Alternating(Turns(W.AfterTurn(env, messages, turn))) <==>
            Alternating(Turns(messages)) && !(turn.AutoWrote? && Opener(messages) == UserText)
  {
    match turn {
      case Nudged(answer, hint) =>
        var said, nudge := AssistantMessage(answer, []), UserMessage(env.nudgeText(hint));
        AddOne(messages, said);
        AddOne(messages + [said], nudge);
        assert messages + [said, nudge] == (messages + [said]) + [nudge];
      case AutoWrote(calls) =>
        var results := WriteMessages(env, messages, calls);
        AddResults(messages, results);
      case Called(content, calls, n) =>
        var asked := messages + [AssistantMessage(content, calls)];
        AddOne(messages, AssistantMessage(content, calls));
        var results := ToolMessages(env, asked, W.ExecutedIn(turn));
        AddResults(asked, results);
    }
  }

  // ---- Runs ----

  lemma {:induction false} TrimEnds(s: string)
    ensures TrimRight(s) <= s && (TrimRight(s) != "" ==> !IsSpace(TrimRight(s)[|TrimRight(s)| - 1]))
    ensures TrimLeft(s) != "" ==> !IsSpace(TrimLeft(s)[0])
  {
    if s != "" {
      TrimEnds(s[..|s| - 1]);
      TrimEnds(s[1..]);
    }
  }

  lemma {:induction false} FindingShows(content: string)
    ensures TrimSpace(W.Finding(content)) != ""
  {
    TrimEnds(content);
    TrimEnds(TrimLeft(content));
  }

  /** What the next turn of a run is, as far as alternation goes: a nudge comes first and
      repeats an answer that is not blank, and nothing is written by itself after it. */
  lemma {:induction false} NextTurnFits(env: W.Env, task: W.Task, limits: W.Limits, messages: seq<Message>,
                                        turns: seq<W.Turn>, turn: W.Turn)
    requires W.Next(env, task, limits, messages, turns) == W.Go(turn)
    ensures W.MayFollow(limits, turns, turn)
    ensures turn.Nudged? ==> TrimSpace(turn.answer) != ""
    ensures turn.AutoWrote? && turns != [] ==> !turns[|turns| - 1].Nudged?
  {
    var reply := env.model(W.AfterTurns(env, messages, turns));
    FindingShows(reply.content);
  }

  /** The first turn writes by itself directly after user text. */
  predicate WroteAfterText(messages: seq<Message>, turns: seq<W.Turn>) {
    turns != [] && turns[0].AutoWrote? && Opener(messages) == UserText
  }

  /** Whatever the turns of a run are, its conversation goes on alternating exactly if the run
      does not begin by writing directly after user text, and its last turn says how it ends. */
  lemma {:induction false} TurnsAdd(env: W.Env, task: W.Task, limits: W.Limits, messages: seq<Message>,
                                    turns: seq<W.Turn>)
    requires NudgesShow(env) && W.Follows(env, task, limits, messages, turns) && Ready(messages)
    ensures Opener(W.AfterTurns(env, messages, turns)) ==
            if turns == [] then Opener(messages) else EndKind(turns[|turns| - 1])
    ensures Alternating(Turns(W.AfterTurns(env, messages, turns))) <==>
            Alternating(Turns(messages)) && !WroteAfterText(messages, turns)
    decreases |turns|
  {
    if turns != [] {
      var n := |turns| - 1;
      var front, turn := turns[..n], turns[n];
      assert W.Fits(env, task, limits, messages, turns, n);
      NextTurnFits(env, task, limits, messages, front, turn);
      W.FrontFollows(env, task, limits, messages, turns);
      TurnsAdd(env, task, limits, messages, front);
      if n > 0 {
        assert W.Fits(env, task, limits, messages, turns, n - 1) && turns[..n][..n - 1] == turns[..n - 1];
        NextTurnFits(env, task, limits, messages, turns[..n - 1], turns[n - 1]);
      }
      TurnAdds(env, limits, W.AfterTurns(env, messages, front), front, turn);
    }
  }

  lemma {:induction false} FirstTurn(env: W.Env, task: W.Task, limits: W.Limits, messages: seq<Message>,
                                     turns: seq<W.Turn>)
    requires W.Follows(env, task, limits, messages, turns)
    ensures turns != [] ==> (turns[0].AutoWrote? <==> WritesFirst(env, task, limits, messages))
  {
    if turns != [] {
      assert W.Fits(env, task, limits, messages, turns, 0);
      assert turns[..0] == [];
    }
  }

  /** The run begins by writing files by itself, directly after user text. */
  predicate WritesAfterText(env: W.Env, task: W.Task, limits: W.Limits, messages: seq<Message>) {
    Opener(messages) == UserText && WritesFirst(env, task, limits, messages)
  }

  /** A run on a conversation that alternates and ends in the user's side leaves one that
      alternates, exactly if it does not begin by writing by itself directly after user text. */
  lemma {:induction false} RunAlternatesIff(env: W.Env, task: W.Task, limits: W.Limits, messages: seq<Message>,
                                            turns: seq<W.Turn>, grown: seq<Message>, out: string, ending: W.Ending)
    requires NudgesShow(env) && W.RunBy(env, task, limits, messages, turns, grown, out, ending) && Ready(messages)
    ensures Alternating(Turns(grown)) <==>
            Alternating(Turns(messages)) && !WritesAfterText(env, task, limits, messages)
    ensures Opener(grown) == if turns == [] then Opener(messages) else EndKind(turns[|turns| - 1])
  {
    FirstTurn(env, task, limits, messages, turns);
    TurnsAdd(env, task, limits, messages, turns);
  }

  /** The run stops right after its nudge: the next reply has no calls, or there is none. */
  predicate OnlyNudged(env: W.Env, task: W.Task, limits: W.Limits, messages: seq<Message>) {
    var next := W.Next(env, task, limits, messages, []);
    next.Go? && next.turn.Nudged? && W.Next(env, task, limits, messages, [next.turn]).Stop?
  }

  /** A run that is to create files and does not break down ends in a turn opened by user text
      exactly if it stops right after its nudge. */
  lemma {:induction false} EndsInTextIff(env: W.Env, task: W.Task, limits: W.Limits, messages: seq<Message>,
                                         turns: seq<W.Turn>, grown: seq<Message>, out: string, ending: W.Ending)
    requires NudgesShow(env) && W.RunBy(env, task, limits, messages, turns, grown, out, ending) && Ready(messages)
    requires task.createsFiles && limits.maxIterations > 0 && ending != W.Errored
    ensures Opener(grown) == UserText <==> OnlyNudged(env, task, limits, messages)
  {
    TurnsAdd(env, task, limits, messages, turns);
    assert turns != [];
    var front, last := SplitLast(turns);
    assert W.Fits(env, task, limits, messages, turns, |turns| - 1);
    assert W.Fits(env, task, limits, messages, turns, 0) && turns[..0] == [];
    NextTurnFits(env, task, limits, messages, front, last);
    if |turns| > 1 {
      assert W.Fits(env, task, limits, messages, turns, 1) && turns[..1] == [turns[0]];
    }
    assert |turns| == 1 ==> turns == [turns[0]];
  }

  // ---- What the model is asked with ----

  /** The run has taken these turns and asks the model next. */
  ghost predicate Asks(env: W.Env, task: W.Task, limits: W.Limits, messages: seq<Message>, turns: seq<W.Turn>) {
    && W.Follows(env, task, limits, messages, turns) && |turns| < limits.maxIterations
    && (turns != [] ==> W.Complete(turns[|turns| - 1]))
  }

  /** Every conversation that the run asks the model with alternates. */
  ghost predicate AsksWell(env: W.Env, task: W.Task, limits: W.Limits, messages: seq<Message>) {
    forall turns {:trigger Asks(env, task, limits, messages, turns)} | Asks(env, task, limits, messages, turns) ::
      Alternating(Turns(W.AfterTurns(env, messages, turns)))
  }

  lemma {:induction false} AsksFirst(env: W.Env, task: W.Task, limits: W.Limits, messages: seq<Message>)
    requires AsksWell(env, task, limits, messages) && limits.maxIterations > 0
    ensures Alternating(Turns(messages))
  {
    assert Asks(env, task, limits, messages, []);
  }

  /** All requests of a run alternate, exactly if the conversation it is given does and no
      request follows a write directly after user text. */
  lemma {:induction false} RunAsksIff(env: W.Env, task: W.Task, limits: W.Limits, messages: seq<Message>)
    requires NudgesShow(env) && Ready(messages) && limits.maxIterations > 0
    ensures AsksWell(env, task, limits, messages) <==>
            && Alternating(Turns(messages))
            && !(limits.maxIterations > 1 && WritesAfterText(env, task, limits, messages))
  {
    if AsksWell(env, task, limits, messages) {
      AsksFirst(env, task, limits, messages);
      if limits.maxIterations > 1 && WritesAfterText(env, task, limits, messages) {
        var turn := W.Next(env, task, limits, messages, []).turn;
        assert [] + [turn] == [turn];
        W.AddFollows(env, task, limits, messages, [], turn);
        assert Asks(env, task, limits, messages, [turn]);
        TurnsAdd(env, task, limits, messages, [turn]);
        assert false;
      }
    } else {
      var turns :| Asks(env, task, limits, messages, turns) &&
        !Alternating(Turns(W.AfterTurns(env, messages, turns)));
      TurnsAdd(env, task, limits, messages, turns);
      FirstTurn(env, task, limits, messages, turns);
    }
  }

  // ---- Retries ----

  /** The conversation that a retry starts from. */
  function RetryStart(gate: V.Gate, t: V.Try): seq<Message> {
    t.messages + [ToolMessage("", t.failure), UserMessage(gate.retryNudge(gate.claimed(t.out)))]
  }

  /** A retry's tool message breaks the alternation exactly after user text; whatever its nudge
      says, the turn that the nudge joins or is lost in is opened by that tool message. */
  lemma {:induction false} RetryStarts(gate: V.Gate, t: V.Try)
    ensures Opener(RetryStart(gate, t)) == Result
    ensures Alternating(Turns(RetryStart(gate, t))) <==>
            Alternating(Turns(t.messages)) && Opener(t.messages) != UserText
  {
    var tool, user := ToolMessage("", t.failure), UserMessage(gate.retryNudge(gate.claimed(t.out)));
    assert RetryStart(gate, t) == (t.messages + [tool]) + [user];
    AddOne(t.messages, tool);
    AddOne(t.messages + [tool], user);
  }

  /** So what a retry leaves alternates exactly if what it was given does and does not end in
      user text: a retry's own writes join its tool message. */
  lemma {:induction false} RetryAlternatesIff(gate: V.Gate, env: W.Env, task: W.Task, limits: W.Limits, t: V.Try)
    requires NudgesShow(env) && V.IsRetry(gate, env, task, limits, t)
    ensures Alternating(Turns(t.grown)) <==> Alternating(Turns(t.messages)) && Opener(t.messages) != UserText
    ensures limits.maxIterations > 0 ==>
              (AsksWell(env, task, limits, RetryStart(gate, t)) <==>
               Alternating(Turns(t.messages)) && Opener(t.messages) != UserText)
  {
    var start := RetryStart(gate, t);
    RetryStarts(gate, t);
    var turns :| W.RunBy(env, task, limits, start, turns, t.grown, t.retryOut, t.ending);
    RunAlternatesIff(env, task, limits, start, turns, t.grown, t.retryOut, t.ending);
    if limits.maxIterations > 0 {
      RunAsksIff(env, task, limits, start);
    }
  }

  /** The retry is added to the conversation, directly behind user text. */
  predicate Disturbs(t: V.Try) {
    t.ending != W.Errored && Opener(t.messages) == UserText
  }

  ghost predicate Undisturbed(tries: seq<V.Try>) {
    forall t | t in tries :: !Disturbs(t)
  }

  ghost predicate CleanStarts(tries: seq<V.Try>) {
    forall t | t in tries :: Opener(t.messages) != UserText
  }

  lemma {:induction false} UndisturbedNext(front: seq<V.Try>, t: V.Try)
    ensures Undisturbed(front + [t]) <==> Undisturbed(front) && !Disturbs(t)
    ensures CleanStarts(front + [t]) <==> CleanStarts(front) && Opener(t.messages) != UserText
  {
    var all := front + [t];
    assert t in all && forall u | u in all :: u in front || u == t;
  }

  lemma {:induction false} LastTry(gate: V.Gate, env: W.Env, task: W.Task, limits: W.Limits, messages: seq<Message>,
                                   out: string,
                                   tries: seq<V.Try>, final: seq<Message>, finalOut: string,
                                     tagged: string) returns (front: seq<V.Try>, t: V.Try)
    requires V.LeadsTo(gate, env, task, limits, messages, out, tries, final, finalOut, tagged) && tries != []
    ensures tries == front + [t] && V.IsRetry(gate, env, task, limits, t)
    ensures V.LeadsTo(gate, env, task, limits, messages, out, front, t.messages, t.out, t.failure)
    ensures final == if t.ending == W.Errored then t.messages else t.grown
    ensures front != [] ==> front[|front| - 1].ending != W.Errored
  {
    front, t := SplitLast(tries);
  }

  /** After any retries the conversation alternates exactly if it did before them and none was
      added directly behind user text. */
  lemma {:induction false} RetriesAlternateIff(gate: V.Gate, env: W.Env, task: W.Task, limits: W.Limits,
                                               messages: seq<Message>, out: string, tries: seq<V.Try>,
                                               final: seq<Message>, finalOut: string, tagged: string)
    requires V.LeadsTo(gate, env, task, limits, messages, out, tries, final, finalOut, tagged)
    ensures NudgesShow(env) ==>
              (Alternating(Turns(final)) <==> Alternating(Turns(messages)) && Undisturbed(tries))
    decreases |tries|
  {
    if tries != [] && NudgesShow(env) {
      var front, t := LastTry(gate, env, task, limits, messages, out, tries, final, finalOut, tagged);
      RetriesAlternateIff(gate, env, task, limits, messages, out, front, t.messages, t.out, t.failure);
      UndisturbedNext(front, t);
      RetryAlternatesIff(gate, env, task, limits, t);
    }
  }

  // ---- Whole steps ----

  /** A worker run on a prompt and a request that is not blank left these messages. */
  ghost predicate IsStep(env: W.Env, task: W.Task, limits: W.Limits, opening: seq<Message>,
                         messages: seq<Message>, out: string, ending: W.Ending) {
    && NudgesShow(env) && W.RunGives(env, task, limits, opening, messages, out, ending)
    && exists prompt, request :: opening == Opening(prompt, request) && TrimSpace(request) != ""
  }

  lemma {:induction false} OpeningReady(opening: seq<Message>, prompt: string, request: string)
    requires opening == Opening(prompt, request) && TrimSpace(request) != ""
    ensures Opener(opening) == UserText && Alternating(Turns(opening))
  {
    TextsFlow(Ignored, opening);
    FlowsAlternates(opening);
  }

  lemma {:induction false} FirstRun(env: W.Env, task: W.Task, limits: W.Limits, opening: seq<Message>,
                                    messages: seq<Message>, out: string, ending: W.Ending)
    requires IsStep(env, task, limits, opening, messages, out, ending)
    ensures Opener(opening) == UserText && Alternating(Turns(opening))
    ensures Alternating(Turns(messages)) <==> !WritesFirst(env, task, limits, opening)
  {
    var prompt, request :| opening == Opening(prompt, request) && TrimSpace(request) != "";
    OpeningReady(opening, prompt, request);
    var turns :| W.RunBy(env, task, limits, opening, turns, messages, out, ending);
    RunAlternatesIff(env, task, limits, opening, turns, messages, out, ending);
  }

  /** A whole step, from the prompt to the last retry: its conversation alternates exactly if
      the first run does not begin by writing by itself and no retry was added directly behind
      user text. */
  lemma {:induction false} StepAlternatesIff(gate: V.Gate, env: W.Env, task: W.Task, limits: W.Limits,
                                             opening: seq<Message>, messages: seq<Message>, out: string,
                                             ending: W.Ending, tries: seq<V.Try>, final: seq<Message>,
                                             finalOut: string, tagged: string)
    requires V.LeadsTo(gate, env, task, limits, messages, out, tries, final, finalOut, tagged)
    ensures IsStep(env, task, limits, opening, messages, out, ending) ==>
              (Alternating(Turns(final)) <==> !WritesFirst(env, task, limits, opening) && Undisturbed(tries))
  {
    if IsStep(env, task, limits, opening, messages, out, ending) {
      FirstRun(env, task, limits, opening, messages, out, ending);
      RetriesAlternateIff(gate, env, task, limits, messages, out, tries, final, finalOut, tagged);
    }
  }

  /** The first run and all retries, the last of which may break down, ask the model with
      conversations that alternate. */
  ghost predicate StepAsksWell(gate: V.Gate, env: W.Env, task: W.Task, limits: W.Limits, opening: seq<Message>,
                               tries: seq<V.Try>) {
    && AsksWell(env, task, limits, opening)
    && forall t | t in tries :: AsksWell(env, task, limits, RetryStart(gate, t))
  }

  /** All retries ask well exactly if the first run's conversation alternates, should there be
      any, and none starts directly behind user text. */
  lemma {:induction false} RetriesAskIff(gate: V.Gate, env: W.Env, task: W.Task, limits: W.Limits,
                                         messages: seq<Message>, out: string, tries: seq<V.Try>,
                                         final: seq<Message>, finalOut: string, tagged: string)
    requires V.LeadsTo(gate, env, task, limits, messages, out, tries, final, finalOut, tagged)
    requires limits.maxIterations > 0
    ensures NudgesShow(env) ==>
              ((forall t | t in tries :: AsksWell(env, task, limits, RetryStart(gate, t))) <==>
               (tries == [] || Alternating(Turns(messages))) && CleanStarts(tries))
    decreases |tries|
  {
    if tries != [] && NudgesShow(env) {
      var front, t := LastTry(gate, env, task, limits, messages, out, tries, final, finalOut, tagged);
      RetriesAskIff(gate, env, task, limits, messages, out, front, t.messages, t.out, t.failure);
      RetriesAlternateIff(gate, env, task, limits, messages, out, front, t.messages, t.out, t.failure);
      UndisturbedNext(front, t);
      RetryAlternatesIff(gate, env, task, limits, t);
    }
  }

  /** All requests of a step alternate, exactly if none follows a first write and no retry
      starts directly behind user text. */
  lemma {:induction false} StepAsksIff(gate: V.Gate, env: W.Env, task: W.Task, limits: W.Limits,
                                       opening: seq<Message>, messages: seq<Message>, out: string,
                                       ending: W.Ending, tries: seq<V.Try>, final: seq<Message>,
                                       finalOut: string, tagged: string)
    requires V.LeadsTo(gate, env, task, limits, messages, out, tries, final, finalOut, tagged)
    requires limits.maxIterations > 0
    ensures IsStep(env, task, limits, opening, messages, out, ending) ==>
              (StepAsksWell(gate, env, task, limits, opening, tries) <==>
               && !(WritesFirst(env, task, limits, opening) && (limits.maxIterations > 1 || tries != []))
               && CleanStarts(tries))
  {
    if IsStep(env, task, limits, opening, messages, out, ending) {
      FirstRun(env, task, limits, opening, messages, out, ending);
      RunAsksIff(env, task, limits, opening);
      RetriesAskIff(gate, env, task, limits, messages, out, tries, final, finalOut, tagged);
    }
  }

  /** What the run before a retry was given. */
  function GivenBefore(gate: V.Gate, opening: seq<Message>, tries: seq<V.Try>, i: nat): seq<Message>
    requires i <= |tries|
  {
    if i == 0 then opening else RetryStart(gate, tries[i - 1])
  }

  lemma {:induction false} LastRun(gate: V.Gate, env: W.Env, task: W.Task, limits: W.Limits,
                                   opening: seq<Message>, messages: seq<Message>, out: string,
                                   ending: W.Ending, tries: seq<V.Try>, final: seq<Message>,
                                   finalOut: string, tagged: string)
    returns (lastOut: string, lastEnding: W.Ending)
    requires V.LeadsTo(gate, env, task, limits, messages, out, tries, final, finalOut, tagged)
    requires IsStep(env, task, limits, opening, messages, out, ending) && ending != W.Errored
    requires tries != [] ==> tries[|tries| - 1].ending != W.Errored
    ensures lastEnding != W.Errored && Ready(GivenBefore(gate, opening, tries, |tries|))
    ensures W.RunGives(env, task, limits, GivenBefore(gate, opening, tries, |tries|), final, lastOut, lastEnding)
  {
    lastOut, lastEnding := out, ending;
    if tries == [] {
      FirstRun(env, task, limits, opening, messages, out, ending);
    } else {
      var front, t := LastTry(gate, env, task, limits, messages, out, tries, final, finalOut, tagged);
      RetryStarts(gate, t);
      lastOut, lastEnding := t.retryOut, t.ending;
    }
  }

  /** In terms of the code: a retry starts directly behind user text exactly if the run before
      it, the first one or a retry, stopped right after its nudge. */
  lemma {:induction false} StartsBehindTextIff(gate: V.Gate, env: W.Env, task: W.Task, limits: W.Limits,
                                               opening: seq<Message>, messages: seq<Message>, out: string,
                                               ending: W.Ending, tries: seq<V.Try>, final: seq<Message>,
                                               finalOut: string, tagged: string, i: nat)
    requires V.LeadsTo(gate, env, task, limits, messages, out, tries, final, finalOut, tagged) && i < |tries|
    requires task.createsFiles && limits.maxIterations > 0 && ending != W.Errored
    ensures IsStep(env, task, limits, opening, messages, out, ending) ==>
              (Opener(tries[i].messages) == UserText <==>
               OnlyNudged(env, task, limits, GivenBefore(gate, opening, tries, i)))
    decreases |tries|
  {
    if IsStep(env, task, limits, opening, messages, out, ending) {
      var front, t := LastTry(gate, env, task, limits, messages, out, tries, final, finalOut, tagged);
      if i < |front| {
        StartsBehindTextIff(gate, env, task, limits, opening, messages, out, ending, front, t.messages, t.out,
          t.failure, i);
      } else {
        var lastOut, lastEnding := LastRun(gate, env, task, limits, opening, messages, out, ending, front,
          t.messages, t.out, t.failure);
        var given := GivenBefore(gate, opening, front, i);
        var turns :| W.RunBy(env, task, limits, given, turns, t.messages, lastOut, lastEnding);
        EndsInTextIff(env, task, limits, given, turns, t.messages, lastOut, lastEnding);
      }
    }
  }

  // ---- Both happen ----

  /** A first reply that only shows code for a step that creates files: the run writes the
      files by itself, and its conversation does not alternate. */
  lemma {:induction false} ShownCodeBreaks(env: W.Env, task: W.Task, limits: W.Limits, prompt: string, request: string,
                                           code: string)
    requires NudgesShow(env) && TrimSpace(request) != "" && task.createsFiles && limits.maxIterations > 0
    requires env.model(Opening(prompt, request)) == W.Answer(code, []) && env.intercept(W.Finding(code)) != []
    ensures var turns := [W.AutoWrote(env.intercept(W.Finding(code)))];
            && W.Follows(env, task, limits, Opening(prompt, request), turns)
            && !Alternating(Turns(W.AfterTurns(env, Opening(prompt, request), turns)))
  {
    var opening, turn := Opening(prompt, request), W.AutoWrote(env.intercept(W.Finding(code)));
    assert [] + [turn] == [turn];
    W.AddFollows(env, task, limits, opening, [], turn);
    OpeningReady(opening, prompt, request);
    TurnsAdd(env, task, limits, opening, [turn]);
  }

  /** A step that is accepted right after its nudge: no retry on it alternates, neither what the
      retry starts from nor what it leaves. */
  lemma {:induction false} RetryBreaks(gate: V.Gate, env: W.Env, task: W.Task, limits: W.Limits, prompt: string,
                                       request: string, nudged: W.Turn, messages: seq<Message>, out: string,
                                       t: V.Try)
    requires NudgesShow(env) && TrimSpace(request) != "" && nudged.Nudged?
    requires W.RunBy(env, task, limits, Opening(prompt, request), [nudged], messages, out, W.Accepted)
    requires V.IsRetry(gate, env, task, limits, t) && t.messages == messages
    ensures !Alternating(Turns(RetryStart(gate, t))) && !Alternating(Turns(t.grown))
  {
    OpeningReady(Opening(prompt, request), prompt, request);
    RunAlternatesIff(env, task, limits, Opening(prompt, request), [nudged], messages, out, W.Accepted);
    RetryStarts(gate, t);
    RetryAlternatesIff(gate, env, task, limits, t);
  }

  /** A model that answers every request with this text and without calls. */
  function Talker(answer: string): W.Env {
    W.Env((ms: seq<Message>) => W.Answer(answer, []), (ms: seq<Message>, call: ToolCall) => W.Output("done"),
      (s: string) => [], (hint: string) => "use " + hint)
  }

  lemma {:induction false} TalkerShows(answer: string)
    ensures NudgesShow(Talker(answer))
  {
    forall hint ensures TrimSpace(Talker(answer).nudgeText(hint)) != "" {
      var text := "use " + hint;
      TrimEnds(text);
      KeepsFirst(text);
    }
  }

  lemma {:induction false} KeepsFirst(s: string)
    requires s != "" && !IsSpace(s[0])
    ensures TrimSpace(s) != ""
  {
    if |s| > 1 && IsSpace(s[|s| - 1]) {
      KeepsFirst(s[..|s| - 1]);
    }
  }

  /** Its run: the nudge, then an answer accepted without evidence. */
  lemma {:induction false} TalkerRun(answer: string, task: W.Task, limits: W.Limits, messages: seq<Message>)
      returns (nudged: W.Turn, grown: seq<Message>)
    requires task.createsFiles && limits.maxIterations > 1
    ensures W.RunBy(Talker(answer), task, limits, messages, [nudged], grown, W.NO_EVIDENCE + W.Finding(answer),
                    W.Accepted)
    ensures nudged.Nudged? && exists a, b :: grown == messages + [AssistantMessage(a, []), UserMessage(b)]
  {
    var env := Talker(answer);
    nudged := W.Next(env, task, limits, messages, []).turn;
    assert [] + [nudged] == [nudged];
    W.AddFollows(env, task, limits, messages, [], nudged);
    W.AddTurn(env, messages, [], nudged);
    grown := W.AfterTurns(env, messages, [nudged]);
    assert grown == messages + [AssistantMessage(nudged.answer, []), UserMessage(env.nudgeText(nudged.hint))];
  }

  lemma {:induction false} NothingWritten(gate: V.Gate, messages: seq<Message>)
    requires forall m | m in messages :: m.toolCalls == []
    ensures V.WrittenPaths(gate, messages) == []
  {
    if messages != [] {
      NothingWritten(gate, messages[..|messages| - 1]);
    }
  }

  /** That happens: for any answer that claims a file, the step is nudged, accepted, found
      wanting and retried once, and its conversation does not alternate. */
  lemma {:induction false} TalkerIsRetried(gate: V.Gate, answer: string, task: W.Task, limits: W.Limits,
                                           prompt: string, request: string)
      returns (messages: seq<Message>, out: string, t: V.Try, tagged: string)
    requires task.createsFiles && limits.maxIterations > 1 && TrimSpace(request) != ""
    requires gate.claimed(W.NO_EVIDENCE + W.Finding(answer)) != []
    ensures IsStep(Talker(answer), task, limits, Opening(prompt, request), messages, out, W.Accepted)
    ensures V.Verified(gate, Talker(answer), task, limits, messages, out, [t], t.grown, t.retryOut, tagged)
    ensures !Alternating(Turns(RetryStart(gate, t))) && !Alternating(Turns(t.grown))
  {
    var env, opening := Talker(answer), Opening(prompt, request);
    out := W.NO_EVIDENCE + W.Finding(answer);
    var nudged, grown, again;
    nudged, messages := TalkerRun(answer, task, limits, opening);
    NothingWritten(gate, messages);
    var failure := V.Tagged(V.NoCalls, out);
    t := V.Try(messages, out, failure, V.ClaimKey(gate, out), [], out, W.Accepted);
    again, grown := TalkerRun(answer, task, limits, RetryStart(gate, t));
    t := t.(grown := grown);
    NothingWritten(gate, grown);
    tagged := failure;
    TalkerShows(answer);
    V.AddTry(gate, env, task, limits, messages, out, [], t, 1, tagged);
    assert [] + [t] == [t];
    assert V.KeyAt([t], 0, V.ClaimKey(gate, out));
    RetryBreaks(gate, env, task, limits, prompt, request, nudged, messages, out, t);
  }

  /** A retry's nudge comes behind a tool message and is lost in the translation. */
  lemma {:induction false} RetryNudgeIsLost(messages: seq<Message>, failure: string, nudge: string)
    ensures var told := messages + [ToolMessage("", failure)]; Turns(told + [UserMessage(nudge)]) == Turns(told)
  {
    var told := messages + [ToolMessage("", failure)];
    assert told[..|messages|] == messages && (told + [UserMessage(nudge)])[..|told|] == told;
    LostIff(told, UserMessage(nudge));
  }
}
