/** Which conversations of the loops (internal/agent/worker.go, strategy_react.go and
    context.go) alternate when they are translated for Anthropic (internal/llm/anthropic.go). */
module Alternation {
  import opened Base
  import opened Messages
  import opened Anthropic
  import C = Compaction
  import R = React

  // ---- Parts of conversations ----

  lemma {:induction false} FlowsConcat(before: Kind, a: seq<Message>, b: seq<Message>)
    ensures After(before, a + b) == After(After(before, a), b)
    ensures Flows(before, a + b) <==> Flows(before, a) && Flows(After(before, a), b)
  {
    if b == [] {
      assert a + b == a;
    } else {
      assert (a + b)[..|a + b| - 1] == a + b[..|b| - 1];
      FlowsConcat(before, a, b[..|b| - 1]);
    }
  }

  /** The kind of the first message that counts. */
  function FirstKind(messages: seq<Message>): Kind {
    if messages == [] then Ignored
    else
      var first := FirstKind(messages[..|messages| - 1]);
      if first == Ignored then KindOf(messages[|messages| - 1]) else first
  }

  lemma {:induction false} FirstKindConcat(a: seq<Message>, b: seq<Message>)
    ensures FirstKind(a + b) == if FirstKind(a) == Ignored then FirstKind(b) else FirstKind(a)
  {
    if b == [] {
      assert a + b == a;
    } else {
      assert (a + b)[..|a + b| - 1] == a + b[..|b| - 1];
      FirstKindConcat(a, b[..|b| - 1]);
    }
  }

  /** What comes before matters only to the first message that counts. */
  lemma {:induction false} ComesAfter(was: Kind, now: Kind, messages: seq<Message>)
    requires Flows(was, messages)
    ensures Flows(now, messages) <==> Suits(now, FirstKind(messages))
    ensures After(now, messages) == if FirstKind(messages) == Ignored then now else After(was, messages)
  {
    if messages != [] {
      ComesAfter(was, now, messages[..|messages| - 1]);
    }
  }

  lemma {:induction false} WithoutSystems(before: Kind, messages: seq<Message>)
    ensures After(before, C.Others(messages)) == After(before, messages)
    ensures Flows(before, C.Others(messages)) <==> Flows(before, messages)
  {
    if messages != [] {
      var front, last := messages[..|messages| - 1], messages[|messages| - 1];
      WithoutSystems(before, front);
      if last.role != System {
        FlowsConcat(before, C.Others(front), [last]);
        FlowsConcat(before, front, [last]);
        assert front + [last] == messages;
      }
    }
  }

  ghost predicate OnlyTexts(messages: seq<Message>) {
    forall m | m in messages :: m.role == System || m.role == User
  }

  lemma {:induction false} TextsFlow(before: Kind, messages: seq<Message>)
    requires OnlyTexts(messages)
    ensures Flows(before, messages)
    ensures Opener(messages) == After(Ignored, messages) && Opener(messages) in {Ignored, UserText}
  {
    if messages != [] {
      TextsFlow(before, messages[..|messages| - 1]);
    }
  }

  // ---- Where alternation fails ----

  lemma {:induction false} NeverRepaired(a: seq<Message>, b: seq<Message>)
    requires !Alternating(Turns(a))
    ensures !Alternating(Turns(a + b))
  {
    if b == [] {
      assert a + b == a;
    } else {
      var front := a + b[..|b| - 1];
      NeverRepaired(a, b[..|b| - 1]);
      StepAlternates(front, b[|b| - 1]);
      assert front + [b[|b| - 1]] == a + b;
    }
  }

  lemma {:induction false} OpenerStays(a: seq<Message>, b: seq<Message>)
    requires FirstKind(b) == Ignored
    ensures Opener(a + b) == Opener(a)
  {
    if b == [] {
      assert a + b == a;
    } else {
      assert (a + b)[..|a + b| - 1] == a + b[..|b| - 1];
      OpenerStays(a, b[..|b| - 1]);
    }
  }

  /** A tool result where user text opened the turn, or calls where the assistant did. */
  predicate Clashes(opener: Kind, kind: Kind) {
    (kind == Result && opener == UserText) || (kind == Calls && opener in {AssistantText, Calls})
  }

  lemma {:induction false} ClashBreaks(a: seq<Message>, b: seq<Message>)
    requires Clashes(Opener(a), FirstKind(b))
    ensures !Alternating(Turns(a + b))
    decreases |b|
  {
    var front, last := b[..|b| - 1], b[|b| - 1];
    assert a + b == (a + front) + [last];
    if FirstKind(front) == Ignored {
      OpenerStays(a, front);
      assert (a + b)[..|a + front|] == a + front;
      StepAlternates(a + front, last);
    } else {
      ClashBreaks(a, front);
      NeverRepaired(a + front, [last]);
    }
  }

  // ---- Compaction ----

  /** The newest messages, and around the first user message among them. */
  datatype Parts = Parts(early: seq<Message>, before: seq<Message>, user: seq<Message>, behind: seq<Message>)

  function PartsOf(others: seq<Message>): Parts
    requires |others| > C.RECENT
  {
    var cut, f := |others| - C.RECENT, C.FirstUser(others);
    var recent := others[cut..];
    if cut <= f < |others| then Parts(others[..cut], recent[..f - cut], [recent[f - cut]], recent[f - cut + 1..])
    else Parts(others[..cut], recent, [], [])
  }

  lemma {:induction false} Around(s: seq<Message>, k: nat)
    requires k < |s|
    ensures s == s[..k] + [s[k]] + s[k + 1..]
  {
  }

  lemma {:induction false} SplitAt(s: seq<Message>, k: nat)
    requires k <= |s|
    ensures s == s[..k] + s[k..]
  {
  }

  lemma {:induction false} PartsFit(others: seq<Message>, p: Parts)
    requires |others| > C.RECENT && p == PartsOf(others)
    ensures others == p.early + (p.before + p.user + p.behind) && C.ToKeep(others) == p.before + p.behind
    ensures p.user == [] || (|p.user| == 1 && p.user[0].role == User)
  {
    var cut, f := |others| - C.RECENT, C.FirstUser(others);
    var recent := others[cut..];
    SplitAt(others, cut);
    if cut <= f < |others| {
      Around(recent, f - cut);
      assert recent[f - cut] == others[f];
    } else {
      assert recent + [] == recent && recent + [] + [] == recent;
    }
  }

  /** The first user message is taken out from between an assistant's turn and tool calls. */
  predicate Splices(p: Parts) {
    p.user != [] && FirstKind(p.behind) == Calls && After(UserText, p.before) in {AssistantText, Calls}
  }

  lemma {:induction false} KeptFlows(others: seq<Message>, p: Parts)
    requires |others| > C.RECENT && p == PartsOf(others) && Flows(Ignored, others)
    ensures Flows(UserText, p.before + p.behind) <==> FirstKind(p.before + p.behind) != Result && !Splices(p)
  {
    var before := After(Ignored, p.early);
    PartsFit(others, p);
    FlowsConcat(Ignored, p.early, p.before + p.user + p.behind);
    if p.user == [] {
      assert p.before + p.user + p.behind == p.before == p.before + p.behind;
      ComesAfter(before, UserText, p.before);
    } else {
      SplicedFlows(before, p.before, p.user, p.behind);
    }
  }

  lemma {:induction false} OneText(before: Kind, user: seq<Message>)
    requires |user| == 1 && user[0].role == User
    ensures Flows(before, user) && After(before, user) == if KindOf(user[0]) == Ignored then before else UserText
  {
    assert user[..0] == [];
  }

  lemma {:induction false} SplicedFlows(before: Kind, a: seq<Message>, user: seq<Message>, b: seq<Message>)
    requires Flows(before, a + user + b) && |user| == 1 && user[0].role == User
    ensures Flows(UserText, a + b) <==>
            FirstKind(a + b) != Result && !(FirstKind(b) == Calls && After(UserText, a) in {AssistantText, Calls})
  {
    var k1 := After(before, a);
    FlowsConcat(before, a + user, b);
    FlowsConcat(before, a, user);
    OneText(k1, user);
    FlowsConcat(UserText, a, b);
    FirstKindConcat(a, b);
    ComesAfter(before, UserText, a);
    ComesAfter(After(before, a + user), UserText, b);
    ComesAfter(After(before, a + user), After(UserText, a), b);
  }

  /** What a compaction that acts puts before the kept messages. */
  function Head(summary: seq<Message> -> string, messages: seq<Message>): seq<Message>
    requires |C.Others(messages)| > C.RECENT
  {
    var others := C.Others(messages);
    C.Systems(messages) + C.TaskMessage(others) + [UserMessage(summary(C.ToSummarize(others)))]
  }

  lemma {:induction false} SystemsAreSystems(messages: seq<Message>)
    ensures forall m | m in C.Systems(messages) :: m.role == System
  {
    if messages != [] {
      SystemsAreSystems(messages[..|messages| - 1]);
    }
  }

  lemma {:induction false} HeadFlows(summary: seq<Message> -> string, messages: seq<Message>)
    requires |C.Others(messages)| > C.RECENT && TrimSpace(summary(C.ToSummarize(C.Others(messages)))) != ""
    ensures Flows(Ignored, Head(summary, messages))
    ensures After(Ignored, Head(summary, messages)) == Opener(Head(summary, messages)) == UserText
  {
    SystemsAreSystems(messages);
    TextsFlow(Ignored, Head(summary, messages));
  }

  lemma {:induction false} SplicedOpener(head: seq<Message>, before: seq<Message>, early: Kind) returns (opener: Kind)
    requires Flows(Ignored, head) && After(Ignored, head) == UserText
    requires Flows(early, before) && FirstKind(before) != Result && After(UserText, before) in {AssistantText, Calls}
    ensures opener == Opener(head + before) && opener in {AssistantText, Calls}
  {
    ComesAfter(early, UserText, before);
    FlowsConcat(Ignored, head, before);
    FlowsOpener(head + before);
    opener := Opener(head + before);
  }

  lemma {:induction false} SplicedBreaks(head: seq<Message>, before: seq<Message>, behind: seq<Message>, early: Kind)
    requires Flows(Ignored, head) && After(Ignored, head) == UserText && FirstKind(before + behind) != Result
    requires Flows(early, before) && FirstKind(behind) == Calls && After(UserText, before) in {AssistantText, Calls}
    ensures !Alternating(Turns(head + (before + behind)))
  {
    FirstKindConcat(before, behind);
    var opener := SplicedOpener(head, before, early);
    ClashBreaks(head + before, behind);
    assert head + (before + behind) == (head + before) + behind;
  }

  /** A compaction that acts on a conversation that flows leaves one that alternates exactly if
      the kept messages do not begin with a tool result, whose call has been summarised away,
      and no user text was taken out from between an assistant's turn and tool calls. */
  lemma {:induction false} CompactionAlternates(summary: seq<Message> -> string, messages: seq<Message>, maxTokens: int)
    requires !C.Fits(messages, maxTokens) && |C.Others(messages)| > C.RECENT && Flows(Ignored, messages)
    requires TrimSpace(summary(C.ToSummarize(C.Others(messages)))) != ""
    ensures var others, out := C.Others(messages), C.SmartCompacted(summary, messages, maxTokens);
            && (Alternating(Turns(out)) <==> FirstKind(C.ToKeep(others)) != Result && !Splices(PartsOf(others)))
            && (Flows(Ignored, out) <==> Alternating(Turns(out)))
            && After(Ignored, out) == After(UserText, C.ToKeep(others))
  {
    var others, head := C.Others(messages), Head(summary, messages);
    var p, keep := PartsOf(others), C.ToKeep(others);
    WithoutSystems(Ignored, messages);
    HeadFlows(summary, messages);
    FlowsConcat(Ignored, head, keep);
    KeptFlows(others, p);
    PartsFit(others, p);
    if Flows(UserText, keep) {
      FlowsAlternates(head + keep);
    } else if FirstKind(keep) == Result {
      ClashBreaks(head, keep);
    } else {
      FlowsConcat(Ignored, p.early, p.before + p.user + p.behind);
      FlowsConcat(After(Ignored, p.early), p.before + p.user, p.behind);
      FlowsConcat(After(Ignored, p.early), p.before, p.user);
      SplicedBreaks(head, p.before, p.behind, After(Ignored, p.early));
    }
  }

  // ---- ReAct runs ----

  ghost predicate SummariesShow(env: R.Env) {
    forall s {:trigger env.summary(s)} :: TrimSpace(env.summary(s)) != ""
  }

  /** The upkeep compacts, and the messages it keeps begin with a tool result. */
  predicate Cuts(cfg: R.Config, messages: seq<Message>) {
    && C.Chars(messages) / 4 > cfg.maxContextTokens && !C.Fits(messages, R.Half(cfg.maxContextTokens))
    && |C.Others(messages)| > C.RECENT && FirstKind(C.ToKeep(C.Others(messages))) == Result
  }

  /** What a ReAct conversation ends in between two turns. */
  predicate Open(kind: Kind) {
    kind == Ignored || kind == UserText || kind == Result
  }

  lemma {:induction false} UpkeepAlternates(env: R.Env, cfg: R.Config, messages: seq<Message>, task: Message)
    requires SummariesShow(env) && C.StartsWithTask(messages, task)
    requires Flows(Ignored, messages) && Open(After(Ignored, messages))
    ensures Alternating(Turns(R.Upkept(env, cfg, messages))) <==> !Cuts(cfg, messages)
    ensures !Cuts(cfg, messages) ==>
              Flows(Ignored, R.Upkept(env, cfg, messages)) && Open(After(Ignored, R.Upkept(env, cfg, messages)))
  {
    var limit, others := R.Half(cfg.maxContextTokens), C.Others(messages);
    if C.Chars(messages) / 4 > cfg.maxContextTokens && !C.Fits(messages, limit) && |others| > C.RECENT {
      C.TaskIsFirst(messages, task);
      CompactionAlternates(env.summary, messages, limit);
      WithoutSystems(Ignored, messages);
      KeptEndsOpen(others);
    } else {
      FlowsAlternates(messages);
    }
  }

  lemma {:induction false} KeptEndsOpen(others: seq<Message>)
    requires |others| > C.RECENT && C.FirstUser(others) == 0 && Flows(Ignored, others) && Open(After(Ignored, others))
    ensures Open(After(UserText, C.ToKeep(others)))
  {
    var p := PartsOf(others);
    PartsFit(others, p);
    assert p.before + p.user + p.behind == p.before == C.ToKeep(others);
    FlowsConcat(Ignored, p.early, p.before);
    ComesAfter(After(Ignored, p.early), UserText, p.before);
  }

  lemma {:induction false} ResultsFlow(before: Kind, results: seq<Message>)
    requires before in {Calls, Result} && forall m | m in results :: m.role == Tool
    ensures Flows(before, results) && After(before, results) == if results == [] then before else Result
  {
    if results != [] {
      ResultsFlow(before, results[..|results| - 1]);
    }
  }

  lemma {:induction false} CallsFlow(before: Kind, asked: seq<Message>, results: seq<Message>)
    requires |asked| == 1 && KindOf(asked[0]) == Calls && Suits(before, Calls) && forall m | m in results ::
             m.role == Tool
    ensures Flows(before, asked + results) && After(before, asked + results) == if results == [] then Calls else Result
  {
    FlowsConcat(before, asked, results);
    assert asked[..0] == [];
    ResultsFlow(Calls, results);
  }

  lemma {:induction false} TurnFlows(env: R.Env, turn: R.Turn, before: Kind)
    requires Open(before) && (turn.Ran? ==> turn.calls != [])
    ensures Flows(before, R.TurnMessages(env, turn)) && Open(After(before, R.TurnMessages(env, turn)))
  {
    match turn {
      case Ran(iter, content, calls) =>
        var results := R.Results(env, iter, calls);
        forall m | m in results ensures m.role == Tool {
          var i :| 0 <= i < |results| && results[i] == m;
          assert results[i] == ToolMessage(calls[i].id, env.truncate(R.ExecOf(env, iter, i).result));
        }
        CallsFlow(before, [AssistantMessage(content, calls)], results);
      case Nudged(text) => OneText(before, [UserMessage(text)]);
      case Resumed(text) => OneText(before, [UserMessage(text)]);
    }
  }

  function Opening(prompt: string, task: string): seq<Message> {
    [SystemMessage(prompt), UserMessage(task)]
  }

  /** The model is asked next, and the upkeep before it cuts. */
  predicate CutsAt(env: R.Env, cfg: R.Config, opening: seq<Message>, turns: seq<R.Turn>, j: nat)
    requires j <= |turns|
  {
    R.Seen(turns[..j]).inRound < R.Iterations(cfg) && Cuts(cfg, R.Conversation(env, cfg, opening, turns[..j]))
  }

  ghost predicate NoCutBefore(env: R.Env, cfg: R.Config, opening: seq<Message>, turns: seq<R.Turn>, n: nat)
    requires n <= |turns| + 1
  {
    forall j {:trigger CutsAt(env, cfg, opening, turns, j)} | 0 <= j < n :: !CutsAt(env, cfg, opening, turns, j)
  }

  lemma {:induction false} NextTurnIs(env: R.Env, cfg: R.Config, h: R.History, turn: R.Turn)
    requires R.Next(env, cfg, h) == R.Go(turn)
    ensures (turn.Ran? ==> turn.calls != []) && (!turn.Resumed? ==> h.inRound < R.Iterations(cfg))
  {
  }

  lemma {:induction false} StepFlows(env: R.Env, cfg: R.Config, before: seq<Message>, turn: R.Turn, task: Message,
                                     now: seq<Message>)
    requires SummariesShow(env) && C.StartsWithTask(before, task) && Flows(Ignored, before) &&
             Open(After(Ignored, before))
    requires (turn.Ran? ==> turn.calls != []) && (turn.Resumed? || !Cuts(cfg, before))
    requires now == (if turn.Resumed? then before else R.Upkept(env, cfg, before)) + R.TurnMessages(env, turn)
    ensures Flows(Ignored, now) && Open(After(Ignored, now))
  {
    UpkeepAlternates(env, cfg, before, task);
    var kept := if turn.Resumed? then before else R.Upkept(env, cfg, before);
    TurnFlows(env, turn, After(Ignored, kept));
    FlowsConcat(Ignored, kept, R.TurnMessages(env, turn));
  }

  ghost predicate Healthy(messages: seq<Message>, task: Message) {
    Flows(Ignored, messages) && Open(After(Ignored, messages)) && C.StartsWithTask(messages, task)
  }

  lemma {:induction false} KeepsTask(env: R.Env, cfg: R.Config, prompt: string, task: string, turns: seq<R.Turn>)
    ensures C.StartsWithTask(R.Conversation(env, cfg, Opening(prompt, task), turns), UserMessage(task))
  {
    R.ConversationKeepsTask(env, cfg, prompt, task, turns);
  }

  lemma {:induction false} OpeningHealthy(prompt: string, task: string)
    ensures Healthy(Opening(prompt, task), UserMessage(task))
  {
    TextsFlow(Ignored, Opening(prompt, task));
    C.Opening(prompt, UserMessage(task));
  }

  lemma {:induction false} ConversationFlows(env: R.Env, cfg: R.Config, prompt: string, task: string,
                                             turns: seq<R.Turn>, n: nat)
    requires SummariesShow(env) && R.Follows(env, cfg, turns) && n <= |turns|
    requires NoCutBefore(env, cfg, Opening(prompt, task), turns, n)
    ensures Healthy(R.Conversation(env, cfg, Opening(prompt, task), turns[..n]), UserMessage(task))
    decreases n
  {
    var opening := Opening(prompt, task);
    if n == 0 {
      OpeningHealthy(prompt, task);
    } else {
      var front, turn := turns[..n - 1], turns[n - 1];
      assert turns[..n] == front + [turn];
      ConversationFlows(env, cfg, prompt, task, turns, n - 1);
      assert R.Fits(env, cfg, turns, n - 1) && !CutsAt(env, cfg, opening, turns, n - 1);
      NextTurnIs(env, cfg, R.Seen(front), turn);
      R.AddTurn(env, cfg, opening, front, turn);
      KeepsTask(env, cfg, prompt, task, turns[..n]);
      StepFlows(env, cfg, R.Conversation(env, cfg, opening, front), turn, UserMessage(task),
        R.Conversation(env, cfg, opening, turns[..n]));
    }
  }

  /** The conversation that the model is asked with after j turns alternates. */
  ghost predicate AlternatesAt(env: R.Env, cfg: R.Config, opening: seq<Message>, turns: seq<R.Turn>, j: nat)
    requires j <= |turns|
  {
    R.Seen(turns[..j]).inRound < R.Iterations(cfg) ==>
      Alternating(Turns(R.Upkept(env, cfg, R.Conversation(env, cfg, opening, turns[..j]))))
  }

  /** Every conversation that a ReAct run asks the model with alternates, exactly if no
      compaction on the way keeps messages that begin with a tool result. */
  lemma {:induction false} ReactAlternatesIff(env: R.Env, cfg: R.Config, prompt: string, task: string,
                                              turns: seq<R.Turn>)
    requires SummariesShow(env) && R.Follows(env, cfg, turns)
    ensures (forall j | 0 <= j <= |turns| :: AlternatesAt(env, cfg, Opening(prompt, task), turns, j)) <==>
            NoCutBefore(env, cfg, Opening(prompt, task), turns, |turns| + 1)
  {
    var opening := Opening(prompt, task);
    if NoCutBefore(env, cfg, opening, turns, |turns| + 1) {
      forall j | 0 <= j <= |turns| ensures AlternatesAt(env, cfg, opening, turns, j) {
        AlternatesThere(env, cfg, prompt, task, turns, j);
      }
    } else {
      var j := FirstCut(env, cfg, opening, turns, |turns| + 1);
      AlternatesThere(env, cfg, prompt, task, turns, j);
    }
  }

  lemma {:induction false} AlternatesThere(env: R.Env, cfg: R.Config, prompt: string, task: string, turns: seq<R.Turn>,
                                           j: nat)
    requires SummariesShow(env) && R.Follows(env, cfg, turns) && j <= |turns|
    requires NoCutBefore(env, cfg, Opening(prompt, task), turns, j)
    ensures AlternatesAt(env, cfg, Opening(prompt, task), turns, j) <==>
            !CutsAt(env, cfg, Opening(prompt, task), turns, j)
  {
    ConversationFlows(env, cfg, prompt, task, turns, j);
    UpkeepAlternates(env, cfg, R.Conversation(env, cfg, Opening(prompt, task), turns[..j]), UserMessage(task));
  }

  lemma {:induction false} FirstCut(env: R.Env, cfg: R.Config, opening: seq<Message>, turns: seq<R.Turn>, n: nat)
      returns (j: nat)
    requires n <= |turns| + 1 && !NoCutBefore(env, cfg, opening, turns, n)
    ensures j < n && NoCutBefore(env, cfg, opening, turns, j) && CutsAt(env, cfg, opening, turns, j)
  {
    if NoCutBefore(env, cfg, opening, turns, n - 1) {
      j := n - 1;
    } else {
      j := FirstCut(env, cfg, opening, turns, n - 1);
    }
  }

  // ---- A run that is cut ----

  const TICKET := ToolCall("1", "file", "{}")

  function CallsOf(iter: nat): seq<ToolCall> {
    if iter <= 2 then [TICKET] else [TICKET, TICKET]
  }

  /** One call, one call, then two calls in parallel. */
  function Busy(): R.Env {
    R.Env(
      (i: nat) => R.Answer("", CallsOf(i), 0),
      (s: string) => [],
      (i: nat, k: nat) => R.Approved,
      (i: nat, k: nat) => R.Output("done"),
      (s: string) => s,
      (ms: seq<Message>) => "summary",
      (n: nat) => "go on",
      (a: nat, b: nat) => "done",
      (s: string) => s)
  }

  function BusyTurn(i: nat): R.Turn {
    R.Ran(i, "", CallsOf(i))
  }

  lemma {:induction false} BusyFollows(cfg: R.Config)
    requires R.Iterations(cfg) >= 3
    ensures R.Follows(Busy(), cfg, [BusyTurn(1), BusyTurn(2), BusyTurn(3)])
    ensures R.Seen([BusyTurn(1), BusyTurn(2), BusyTurn(3)]).inRound == 3
  {
    var none: seq<R.Turn> := [];
    assert none + [BusyTurn(1)] == [BusyTurn(1)] && [BusyTurn(1)] + [BusyTurn(2)] == [BusyTurn(1), BusyTurn(2)];
    assert [BusyTurn(1), BusyTurn(2)] + [BusyTurn(3)] == [BusyTurn(1), BusyTurn(2), BusyTurn(3)];
    R.AddFollows(Busy(), cfg, none, BusyTurn(1));
    R.AddTurn(Busy(), cfg, [], none, BusyTurn(1));
    R.AddFollows(Busy(), cfg, [BusyTurn(1)], BusyTurn(2));
    R.AddTurn(Busy(), cfg, [], [BusyTurn(1)], BusyTurn(2));
    R.AddFollows(Busy(), cfg, [BusyTurn(1), BusyTurn(2)], BusyTurn(3));
    R.AddTurn(Busy(), cfg, [], [BusyTurn(1), BusyTurn(2)], BusyTurn(3));
  }

  lemma {:induction false} BusyMessages(i: nat) returns (more: seq<Message>)
    ensures more == R.TurnMessages(Busy(), BusyTurn(i)) && |more| == 1 + |CallsOf(i)| && more[0].role == Assistant
    ensures forall k | 0 < k < |more| :: more[k].role == Tool
    ensures C.Systems(more) == [] && C.Others(more) == more
  {
    more := R.TurnMessages(Busy(), BusyTurn(i));
    forall k | 0 < k < |more| ensures more[k].role == Tool {
      var results := R.Results(Busy(), i, CallsOf(i));
      assert more[k] == results[k - 1] && results[k - 1].role == Tool;
    }
    C.NoSystems(more);
  }

  /** A turn on a conversation too short to be compacted. */
  lemma {:induction false} BusyAdds(cfg: R.Config, opening: seq<Message>, turns: seq<R.Turn>, i: nat,
                                    before: seq<Message>, others: seq<Message>)
    returns (now: seq<Message>)
    requires before == R.Conversation(Busy(), cfg, opening, turns) && others == C.Others(before) &&
             |others| <= C.RECENT
    ensures now == R.Conversation(Busy(), cfg, opening, turns + [BusyTurn(i)]) && before <= now
    ensures others <= C.Others(now) && |C.Others(now)| == |others| + 1 + |CallsOf(i)|
    ensures C.Others(now)[|others| + 1].role == Tool && !Cuts(cfg, before)
  {
    var more := BusyMessages(i);
    now := before + more;
    R.AddTurn(Busy(), cfg, opening, turns, BusyTurn(i));
    C.SplitConcat(before, more);
  }

  lemma {:induction false} ToolFirst(messages: seq<Message>)
    requires messages != [] && messages[0].role == Tool
    ensures FirstKind(messages) == Result
  {
    if |messages| > 1 {
      ToolFirst(messages[..|messages| - 1]);
    }
  }

  lemma {:induction false} CharsOfOne(messages: seq<Message>, i: nat)
    requires i < |messages|
    ensures C.Chars(messages) >= |messages[i].content|
  {
    if i < |messages| - 1 {
      CharsOfOne(messages[..|messages| - 1], i);
    }
  }

  lemma {:induction false} LateCut(cfg: R.Config, messages: seq<Message>, task: Message, i: nat)
    requires i < |messages| && |messages[i].content| >= 4 * (cfg.maxContextTokens + 1) && cfg.maxContextTokens >= 0
    requires C.StartsWithTask(messages, task)
    requires |C.Others(messages)| == 8 && C.Others(messages)[2].role == Tool
    ensures Cuts(cfg, messages)
  {
    CharsOfOne(messages, i);
    C.TaskIsFirst(messages, task);
    ToolFirst(C.ToKeep(C.Others(messages)));
  }

  lemma {:induction false} BusyConversation(cfg: R.Config, prompt: string, task: string, one: seq<R.Turn>,
                                            two: seq<R.Turn>)
      returns (now: seq<Message>)
    requires one == [BusyTurn(1)] && two == one + [BusyTurn(2)]
    ensures now == R.Conversation(Busy(), cfg, Opening(prompt, task), two + [BusyTurn(3)])
    ensures |C.Others(now)| == 8 && C.Others(now)[2].role == Tool && |now| > 1 && now[1] == UserMessage(task)
    ensures !Cuts(cfg, R.Conversation(Busy(), cfg, Opening(prompt, task), []))
    ensures !Cuts(cfg, R.Conversation(Busy(), cfg, Opening(prompt, task), one))
    ensures !Cuts(cfg, R.Conversation(Busy(), cfg, Opening(prompt, task), two))
  {
    var opening, first := Opening(prompt, task), UserMessage(task);
    assert [] + [BusyTurn(1)] == one;
    C.Opening(prompt, first);
    var now1 := BusyAdds(cfg, opening, [], 1, opening, [first]);
    var now2 := BusyAdds(cfg, opening, one, 2, now1, C.Others(now1));
    now := BusyAdds(cfg, opening, two, 3, now2, C.Others(now2));
  }

  lemma {:induction false} BusyUncut(cfg: R.Config, prompt: string, task: string, turns: seq<R.Turn>)
      returns (now: seq<Message>)
    requires turns == [BusyTurn(1), BusyTurn(2), BusyTurn(3)]
    ensures now == R.Conversation(Busy(), cfg, Opening(prompt, task), turns)
    ensures |C.Others(now)| == 8 && C.Others(now)[2].role == Tool && |now| > 1 && now[1] == UserMessage(task)
    ensures NoCutBefore(Busy(), cfg, Opening(prompt, task), turns, 3)
  {
    var none, one, two := turns[..0], turns[..1], turns[..2];
    assert none == [] && one == [BusyTurn(1)] && two == one + [BusyTurn(2)] && turns == two + [BusyTurn(3)];
    now := BusyConversation(cfg, prompt, task, one, two);
  }

  lemma {:induction false} BusyCut(cfg: R.Config, prompt: string, task: string, turns: seq<R.Turn>)
    requires turns == [BusyTurn(1), BusyTurn(2), BusyTurn(3)]
    requires cfg.maxContextTokens >= 0 && |task| >= 4 * (cfg.maxContextTokens + 1)
    ensures Cuts(cfg, R.Conversation(Busy(), cfg, Opening(prompt, task), turns))
    ensures NoCutBefore(Busy(), cfg, Opening(prompt, task), turns, 3)
  {
    var now := BusyUncut(cfg, prompt, task, turns);
    KeepsTask(Busy(), cfg, prompt, task, turns);
    LateCut(cfg, now, UserMessage(task), 1);
  }

  /** Whatever the context budget, with a task that fills it: the third reply's two results make
      the next compaction keep a result whose call it summarises away, so the fourth request does
      not alternate. */
  lemma {:induction false} BusyRunIsCut(cfg: R.Config, prompt: string, task: string, turns: seq<R.Turn>)
    requires R.Iterations(cfg) > 3 && cfg.maxContextTokens >= 0 && |task| >= 4 * (cfg.maxContextTokens + 1)
    requires turns == [BusyTurn(1), BusyTurn(2), BusyTurn(3)]
    ensures R.Follows(Busy(), cfg, turns) && !AlternatesAt(Busy(), cfg, Opening(prompt, task), turns, 3)
  {
    assert turns[..3] == turns;
    BusyCut(cfg, prompt, task, turns);
    BusyFollows(cfg);
    AlternatesThere(Busy(), cfg, prompt, task, turns, 3);
  }
}
