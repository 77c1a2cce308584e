/** The translation of a conversation into Anthropic's alternating turns
    (internal/llm/anthropic.go, buildMessages and mergeText). */
module Anthropic {
  import opened Base
  import opened Messages

  datatype Side = UserSide | AssistantSide

  datatype Block =
    | TextBlock(text: string)
    | ToolUse(id: string, name: string, input: string)
    | ToolResult(id: string, output: string)

  datatype Content = Plain(text: string) | Blocks(blocks: seq<Block>)

  datatype Turn = Turn(side: Side, content: Content)

  predicate LastIs(turns: seq<Turn>, side: Side) {
    turns != [] && turns[|turns| - 1].side == side
  }

  function ReplaceLast(turns: seq<Turn>, turn: Turn): seq<Turn>
    requires turns != []
  {
    turns[..|turns| - 1] + [turn]
  }

  /** Appends text to a turn whose content is a string; block content stays as it is. */
  function MergeText(turn: Turn, text: string): Turn {
    match turn.content
    case Plain(s) => turn.(content := Plain(s + "\n" + text))
    case Blocks(_) => turn
  }

  function FlushText(turns: seq<Turn>, side: Side, content: string): seq<Turn> {
    var text := TrimSpace(content);
    if text == "" then turns
    else if LastIs(turns, side) then ReplaceLast(turns, MergeText(turns[|turns| - 1], text))
    else turns + [Turn(side, Plain(text))]
  }

  function UseBlocks(calls: seq<ToolCall>): seq<Block> {
    if calls == [] then []
    else
      var call := calls[|calls| - 1];
      UseBlocks(calls[..|calls| - 1]) + [ToolUse(call.id, call.name, if call.args != "" then call.args else "{}")]
  }

  function CallBlocks(m: Message): seq<Block> {
    (if TrimSpace(m.content) != "" then [TextBlock(m.content)] else []) + UseBlocks(m.toolCalls)
  }

  function AddResult(turns: seq<Turn>, block: Block): seq<Turn> {
    if LastIs(turns, UserSide) && turns[|turns| - 1].content.Blocks? then
      ReplaceLast(turns, Turn(UserSide, Blocks(turns[|turns| - 1].content.blocks + [block])))
    else turns + [Turn(UserSide, Blocks([block]))]
  }

  /** What one message does to the turns built so far. */
  function Step(turns: seq<Turn>, m: Message): seq<Turn> {
    match m.role
    case System => turns
    case User => FlushText(turns, UserSide, m.content)
    case Assistant =>
      if m.toolCalls != [] then turns + [Turn(AssistantSide, Blocks(CallBlocks(m)))]
      else FlushText(turns, AssistantSide, m.content)
    case Tool => AddResult(turns, ToolResult(m.toolCallId, m.content))
  }

  function Turns(messages: seq<Message>): seq<Turn> {
    if messages == [] then [] else Step(Turns(messages[..|messages| - 1]), messages[|messages| - 1])
  }

  function SystemParts(messages: seq<Message>): seq<string> {
    if messages == [] then []
    else
      var front, last := SystemParts(messages[..|messages| - 1]), messages[|messages| - 1];
      if last.role == System && TrimSpace(last.content) != "" then front + [last.content] else front
  }

  function Join(parts: seq<string>, sep: string): string {
    if parts == [] then "" else if |parts| == 1 then parts[0] else parts[0] + sep + Join(parts[1..], sep)
  }

  /** The blocks of an assistant message with calls: its text, if any, then the calls. */
  method BuildCallBlocks(m: Message) returns (blocks: seq<Block>)
    ensures blocks == CallBlocks(m)
  {
    blocks := [];
    if TrimSpace(m.content) != "" {
      blocks := [TextBlock(m.content)];
    }
    ghost var head := blocks;
    for j := 0 to |m.toolCalls|
      invariant blocks == head + UseBlocks(m.toolCalls[..j])
    {
      assert m.toolCalls[..j + 1][..j] == m.toolCalls[..j];
      var tc := m.toolCalls[j];
      blocks := blocks + [ToolUse(tc.id, tc.name, if tc.args != "" then tc.args else "{}")];
    }
    assert m.toolCalls[..|m.toolCalls|] == m.toolCalls;
  }

  method BuildMessages(messages: seq<Message>) returns (system: string, turns: seq<Turn>)
    ensures system == Join(SystemParts(messages), "\n\n") && turns == Turns(messages)
  {
    var systemParts: seq<string> := [];
    turns := [];
    for i := 0 to |messages|
      invariant systemParts == SystemParts(messages[..i]) && turns == Turns(messages[..i])
    {
      assert messages[..i + 1][..i] == messages[..i];
      var m := messages[i];
      match m.role {
        case System =>
          if TrimSpace(m.content) != "" {
            systemParts := systemParts + [m.content];
          }
        case User =>
          turns := FlushText(turns, UserSide, m.content);
        case Assistant =>
          if |m.toolCalls| > 0 {
            var blocks := BuildCallBlocks(m);
            turns := turns + [Turn(AssistantSide, Blocks(blocks))];
          } else {
            turns := FlushText(turns, AssistantSide, m.content);
          }
        case Tool =>
          var block := ToolResult(m.toolCallId, m.content);
          if |turns| > 0 && turns[|turns| - 1].side == UserSide && turns[|turns| - 1].content.Blocks? {
            turns := turns[|turns| - 1 := Turn(UserSide, Blocks(turns[|turns| - 1].content.blocks + [block]))];
          } else {
            turns := turns + [Turn(UserSide, Blocks([block]))];
          }
      }
    }
    assert messages[..|messages|] == messages;
    system := Join(systemParts, "\n\n");
  }

  // ---- When the roles alternate ----

  /** What a message is to the translation: blank texts and system messages count for nothing. */
  datatype Kind = Ignored | UserText | AssistantText | Calls | Result

  function KindOf(m: Message): Kind {
    match m.role
    case System => Ignored
    case User => if TrimSpace(m.content) == "" then Ignored else UserText
    case Assistant => if m.toolCalls != [] then Calls else if TrimSpace(m.content) == "" then Ignored else AssistantText
    case Tool => Result
  }

  /** The kind of the message that opens the turn a conversation ends in. Texts join the turn
      of their own side, results join a turn opened by results, calls open a turn always. */
  function Opener(messages: seq<Message>): Kind {
    if messages == [] then Ignored
    else
      var before, kind := Opener(messages[..|messages| - 1]), KindOf(messages[|messages| - 1]);
      match kind
      case Ignored => before
      case UserText => if before == UserText || before == Result then before else UserText
      case AssistantText => if before == AssistantText || before == Calls then before else AssistantText
      case Calls => Calls
      case Result => Result
  }

  /** Message i cannot join the turn before it and is of the same side: tool calls after the
      assistant has spoken, or a tool result in a turn opened by user text. */
  predicate BreaksAt(messages: seq<Message>, i: nat)
    requires i < |messages|
  {
    var before, kind := Opener(messages[..i]), KindOf(messages[i]);
    (kind == Calls && (before == AssistantText || before == Calls)) || (kind == Result && before == UserText)
  }

  ghost predicate Unbroken(messages: seq<Message>) {
    forall i {:trigger BreaksAt(messages, i)} | 0 <= i < |messages| :: !BreaksAt(messages, i)
  }

  predicate ClashAt(turns: seq<Turn>, i: nat)
    requires i + 1 < |turns|
  {
    turns[i].side == turns[i + 1].side
  }

  ghost predicate Alternating(turns: seq<Turn>) {
    forall i {:trigger ClashAt(turns, i)} | 0 <= i < |turns| - 1 :: !ClashAt(turns, i)
  }

  /** The last turn is of its opener's side and sort. */
  predicate OpenedBy(turns: seq<Turn>, opener: Kind) {
    match opener
    case Ignored => turns == []
    case UserText => LastIs(turns, UserSide) && turns[|turns| - 1].content.Plain?
    case AssistantText => LastIs(turns, AssistantSide) && turns[|turns| - 1].content.Plain?
    case Calls => LastIs(turns, AssistantSide) && turns[|turns| - 1].content.Blocks?
    case Result => LastIs(turns, UserSide) && turns[|turns| - 1].content.Blocks?
  }

  lemma {:induction false} OpenerCorrect(messages: seq<Message>)
    ensures OpenedBy(Turns(messages), Opener(messages))
  {
    if messages != [] {
      OpenerCorrect(messages[..|messages| - 1]);
    }
  }

  lemma {:induction false} AppendAlternates(turns: seq<Turn>, turn: Turn)
    ensures Alternating(turns + [turn]) <==> Alternating(turns) && !LastIs(turns, turn.side)
  {
    var all := turns + [turn];
    forall i | 0 <= i < |turns| - 1 ensures ClashAt(all, i) == ClashAt(turns, i) {}
    if turns != [] {
      assert ClashAt(all, |turns| - 1) == LastIs(turns, turn.side);
    }
  }

  lemma {:induction false} ReplaceAlternates(turns: seq<Turn>, turn: Turn)
    requires turns != [] && turn.side == turns[|turns| - 1].side
    ensures Alternating(ReplaceLast(turns, turn)) <==> Alternating(turns)
  {
    var all := ReplaceLast(turns, turn);
    forall i | 0 <= i < |turns| - 1 ensures ClashAt(all, i) == ClashAt(turns, i) {}
  }

  lemma {:induction false} FlushAlternates(turns: seq<Turn>, side: Side, content: string)
    ensures Alternating(FlushText(turns, side, content)) <==> Alternating(turns)
  {
    var text := TrimSpace(content);
    if text != "" {
      if LastIs(turns, side) {
        ReplaceAlternates(turns, MergeText(turns[|turns| - 1], text));
      } else {
        AppendAlternates(turns, Turn(side, Plain(text)));
      }
    }
  }

  lemma {:induction false} ResultAlternates(turns: seq<Turn>, block: Block)
    ensures Alternating(AddResult(turns, block)) <==>
            Alternating(turns) && !(LastIs(turns, UserSide) && turns[|turns| - 1].content.Plain?)
  {
    if LastIs(turns, UserSide) && turns[|turns| - 1].content.Blocks? {
      ReplaceAlternates(turns, Turn(UserSide, Blocks(turns[|turns| - 1].content.blocks + [block])));
    } else {
      AppendAlternates(turns, Turn(UserSide, Blocks([block])));
    }
  }

  lemma {:induction false} StepAlternates(messages: seq<Message>, m: Message)
    ensures Alternating(Step(Turns(messages), m)) <==>
            Alternating(Turns(messages)) && !BreaksAt(messages + [m], |messages|)
  {
    var turns := Turns(messages);
    assert (messages + [m])[..|messages|] == messages;
    OpenerCorrect(messages);
    match m.role {
      case System =>
      case User => FlushAlternates(turns, UserSide, m.content);
      case Assistant =>
        FlushAlternates(turns, AssistantSide, m.content);
        AppendAlternates(turns, Turn(AssistantSide, Blocks(CallBlocks(m))));
      case Tool => ResultAlternates(turns, ToolResult(m.toolCallId, m.content));
    }
  }

  /** buildMessages yields strictly alternating roles exactly for unbroken conversations. */
  lemma {:induction false} AlternatesIff(messages: seq<Message>)
    ensures Alternating(Turns(messages)) <==> Unbroken(messages)
  {
    if messages != [] {
      var n := |messages| - 1;
      AlternatesIff(messages[..n]);
      StepAlternates(messages[..n], messages[n]);
      assert messages[..n] + [messages[n]] == messages;
      forall i | 0 <= i < n ensures BreaksAt(messages, i) == BreaksAt(messages[..n], i) {
        assert messages[..n][..i] == messages[..i];
      }
    }
  }

  /** The kind of the last message that counts; before is what it was before these. */
  function After(before: Kind, messages: seq<Message>): Kind {
    if messages == [] then before
    else
      var kind := KindOf(messages[|messages| - 1]);
      if kind == Ignored then After(before, messages[..|messages| - 1]) else kind
  }

  predicate Suits(before: Kind, kind: Kind) {
    match kind
    case Calls => before != AssistantText && before != Calls
    case Result => before == Calls || before == Result
    case _ => true
  }

  /** Tool calls come after user text or results, results come after calls or results. */
  predicate Flows(before: Kind, messages: seq<Message>) {
    messages == [] ||
    (Flows(before, messages[..|messages| - 1]) &&
      Suits(After(before, messages[..|messages| - 1]), KindOf(messages[|messages| - 1])))
  }

  lemma {:induction false} FlowsOpener(messages: seq<Message>)
    requires Flows(Ignored, messages)
    ensures var last, opener := After(Ignored, messages), Opener(messages);
            && (last in {UserText, Result} <==> opener in {UserText, Result})
            && (last == Ignored <==> opener == Ignored) && (last == Result ==> opener == Result)
  {
    if messages != [] {
      FlowsOpener(messages[..|messages| - 1]);
    }
  }

  /** Conversations that flow always alternate. */
  lemma {:induction false} FlowsAlternates(messages: seq<Message>)
    requires Flows(Ignored, messages)
    ensures Alternating(Turns(messages))
  {
    if messages != [] {
      var front, m := messages[..|messages| - 1], messages[|messages| - 1];
      FlowsAlternates(front);
      FlowsOpener(front);
      StepAlternates(front, m);
      assert front + [m] == messages;
    }
  }

  // ---- What is kept and what is lost ----

  /** The blocks of one sort, in order. */
  function Pick(blocks: seq<Block>, results: bool): seq<Block> {
    if blocks == [] then []
    else
      var front, last := Pick(blocks[..|blocks| - 1], results), blocks[|blocks| - 1];
      if (results && last.ToolResult?) || (!results && last.ToolUse?) then front + [last] else front
  }

  function BlocksOf(turn: Turn): seq<Block> {
    match turn.content case Plain(_) => [] case Blocks(blocks) => blocks
  }

  function AllBlocks(turns: seq<Turn>): seq<Block> {
    if turns == [] then [] else AllBlocks(turns[..|turns| - 1]) + BlocksOf(turns[|turns| - 1])
  }

  /** The tool calls of a conversation as blocks, in order. */
  function Uses(messages: seq<Message>): seq<Block> {
    if messages == [] then []
    else
      var front, last := Uses(messages[..|messages| - 1]), messages[|messages| - 1];
      if last.role == Assistant then front + UseBlocks(last.toolCalls) else front
  }

  /** The tool results of a conversation as blocks, in order. */
  function Results(messages: seq<Message>): seq<Block> {
    if messages == [] then []
    else
      var front, last := Results(messages[..|messages| - 1]), messages[|messages| - 1];
      if last.role == Tool then front + [ToolResult(last.toolCallId, last.content)] else front
  }

  lemma {:induction false} PickConcat(a: seq<Block>, b: seq<Block>, results: bool)
    ensures Pick(a + b, results) == Pick(a, results) + Pick(b, results)
  {
    if b == [] {
      assert a + b == a;
    } else {
      assert (a + b)[..|a + b| - 1] == a + b[..|b| - 1];
      PickConcat(a, b[..|b| - 1], results);
    }
  }

  lemma {:induction false} PickUses(calls: seq<ToolCall>)
    ensures Pick(UseBlocks(calls), false) == UseBlocks(calls) && Pick(UseBlocks(calls), true) == []
  {
    if calls != [] {
      var front := UseBlocks(calls[..|calls| - 1]);
      PickUses(calls[..|calls| - 1]);
      assert UseBlocks(calls)[..|front|] == front;
    }
  }

  lemma {:induction false} BlocksAppend(turns: seq<Turn>, turn: Turn)
    ensures AllBlocks(turns + [turn]) == AllBlocks(turns) + BlocksOf(turn)
  {
    assert (turns + [turn])[..|turns|] == turns;
  }

  lemma {:induction false} FlushKeepsBlocks(turns: seq<Turn>, side: Side, content: string)
    ensures AllBlocks(FlushText(turns, side, content)) == AllBlocks(turns)
  {
    var text := TrimSpace(content);
    if text != "" {
      if LastIs(turns, side) {
        BlocksAppend(turns[..|turns| - 1], MergeText(turns[|turns| - 1], text));
      } else {
        BlocksAppend(turns, Turn(side, Plain(text)));
      }
    }
  }

  lemma {:induction false} ResultAddsBlock(turns: seq<Turn>, block: Block)
    ensures AllBlocks(AddResult(turns, block)) == AllBlocks(turns) + [block]
  {
    if LastIs(turns, UserSide) && turns[|turns| - 1].content.Blocks? {
      var front := turns[..|turns| - 1];
      BlocksAppend(front, Turn(UserSide, Blocks(turns[|turns| - 1].content.blocks + [block])));
      assert AllBlocks(turns) == AllBlocks(front) + turns[|turns| - 1].content.blocks;
    } else {
      BlocksAppend(turns, Turn(UserSide, Blocks([block])));
    }
  }

  lemma {:induction false} CallBlocksPicked(m: Message)
    ensures Pick(CallBlocks(m), false) == UseBlocks(m.toolCalls) && Pick(CallBlocks(m), true) == []
  {
    var head := if TrimSpace(m.content) != "" then [TextBlock(m.content)] else [];
    PickUses(m.toolCalls);
    PickConcat(head, UseBlocks(m.toolCalls), false);
    PickConcat(head, UseBlocks(m.toolCalls), true);
    assert Pick(head, false) == [] && Pick(head, true) == [] by {
      if head != [] { assert head[..0] == []; }
    }
  }

  function BlocksFor(m: Message): seq<Block> {
    match m.role
    case Assistant => if m.toolCalls != [] then CallBlocks(m) else []
    case Tool => [ToolResult(m.toolCallId, m.content)]
    case _ => []
  }

  lemma {:induction false} StepAddsBlocks(turns: seq<Turn>, m: Message)
    ensures AllBlocks(Step(turns, m)) == AllBlocks(turns) + BlocksFor(m)
  {
    match m.role {
      case System =>
      case User => FlushKeepsBlocks(turns, UserSide, m.content);
      case Assistant =>
        FlushKeepsBlocks(turns, AssistantSide, m.content);
        BlocksAppend(turns, Turn(AssistantSide, Blocks(CallBlocks(m))));
      case Tool => ResultAddsBlock(turns, ToolResult(m.toolCallId, m.content));
    }
  }

  lemma {:induction false} BlocksForPicked(m: Message)
    ensures Pick(BlocksFor(m), false) == if m.role == Assistant then UseBlocks(m.toolCalls) else []
    ensures Pick(BlocksFor(m), true) == if m.role == Tool then [ToolResult(m.toolCallId, m.content)] else []
  {
    CallBlocksPicked(m);
    assert [ToolResult(m.toolCallId, m.content)][..0] == [];
  }

  /** Every tool call and every tool result appears exactly once, with its ID and text, in
      the original order, whatever the conversation. */
  lemma {:induction false} ToolBlocksKept(messages: seq<Message>)
    ensures Pick(AllBlocks(Turns(messages)), false) == Uses(messages)
    ensures Pick(AllBlocks(Turns(messages)), true) == Results(messages)
  {
    if messages != [] {
      var front, m := messages[..|messages| - 1], messages[|messages| - 1];
      ToolBlocksKept(front);
      StepAddsBlocks(Turns(front), m);
      BlocksForPicked(m);
      PickConcat(AllBlocks(Turns(front)), BlocksFor(m), false);
      PickConcat(AllBlocks(Turns(front)), BlocksFor(m), true);
    }
  }

  lemma {:induction false} FlushTrace(turns: seq<Turn>, side: Side, content: string)
    ensures FlushText(turns, side, content) == turns <==>
            TrimSpace(content) == "" || (LastIs(turns, side) && turns[|turns| - 1].content.Blocks?)
  {
    var text := TrimSpace(content);
    if text != "" && LastIs(turns, side) {
      var last := turns[|turns| - 1];
      var out := ReplaceLast(turns, MergeText(last, text));
      assert out[|turns| - 1] == MergeText(last, text);
      assert last.content.Plain? ==> |MergeText(last, text).content.text| > |last.content.text|;
    }
  }

  lemma {:induction false} ResultTrace(turns: seq<Turn>, block: Block)
    ensures AddResult(turns, block) != turns
  {
    ResultAddsBlock(turns, block);
    assert |AllBlocks(turns) + [block]| != |AllBlocks(turns)|;
  }

  /** A message leaves no trace exactly if it counts for nothing, or is text that joins a
      turn of blocks: user text after tool results, assistant text after tool calls. */
  lemma {:induction false} LostIff(messages: seq<Message>, m: Message)
    ensures Step(Turns(messages), m) == Turns(messages) <==>
            || KindOf(m) == Ignored
            || (KindOf(m) == UserText && Opener(messages) == Result)
            || (KindOf(m) == AssistantText && Opener(messages) == Calls)
  {
    var turns := Turns(messages);
    OpenerCorrect(messages);
    match m.role {
      case System =>
      case User => FlushTrace(turns, UserSide, m.content);
      case Assistant =>
        FlushTrace(turns, AssistantSide, m.content);
        assert |turns + [Turn(AssistantSide, Blocks(CallBlocks(m)))]| != |turns|;
      case Tool => ResultTrace(turns, ToolResult(m.toolCallId, m.content));
    }
  }

  /** Each call becomes a block with its ID, its name and its arguments, an empty object for none. */
  lemma {:induction false} CallsBecomeBlocks(calls: seq<ToolCall>, i: nat)
    requires i < |calls|
    ensures |UseBlocks(calls)| == |calls|
    ensures UseBlocks(calls)[i].ToolUse? && UseBlocks(calls)[i].id == calls[i].id
    ensures UseBlocks(calls)[i].name == calls[i].name
    ensures UseBlocks(calls)[i].input == calls[i].args || (calls[i].args == "" && UseBlocks(calls)[i].input == "{}")
    ensures UseBlocks(calls)[i].input != ""
  {
    var n := |calls| - 1;
    if n > 0 {
      CallsBecomeBlocks(calls[..n], if i < n then i else 0);
    } else {
      assert calls[..0] == [] && UseBlocks([]) == [];
    }
  }

  /** The turn is an assistant message's text, unless that is blank, and then its calls. */
  predicate IsCallTurn(turn: Turn, m: Message) {
    && turn.side == AssistantSide && turn.content.Blocks?
    && if TrimSpace(m.content) == "" then turn.content.blocks == UseBlocks(m.toolCalls)
       else turn.content.blocks == [TextBlock(m.content)] + UseBlocks(m.toolCalls)
  }

  /** Every assistant message with calls has a turn of its own, to which nothing is added. */
  lemma {:induction false} CallsHaveTurns(messages: seq<Message>, i: nat) returns (k: nat)
    requires i < |messages| && KindOf(messages[i]) == Calls
    ensures k < |Turns(messages)| && IsCallTurn(Turns(messages)[k], messages[i])
  {
    var n := |messages| - 1;
    if i < n {
      k := CallsHaveTurns(messages[..n], i);
    } else {
      k := |Turns(messages[..n])|;
      assert [] + UseBlocks(messages[n].toolCalls) == UseBlocks(messages[n].toolCalls);
    }
  }

  /** Some turn of this side is plain text that holds the given one. */
  ghost predicate HoldsText(turns: seq<Turn>, side: Side, text: string) {
    exists k | 0 <= k < |turns| :: HoldsAt(turns[k], side, text)
  }

  predicate HoldsAt(turn: Turn, side: Side, text: string) {
    turn.side == side && turn.content.Plain? && Contains(turn.content.text, text)
  }

  lemma {:induction false} ContainsMore(s: string, more: string, text: string)
    ensures Contains(s, text) ==> Contains(s + more, text)
    ensures Contains(more + text, text)
  {
    if Contains(s, text) {
      var i :| 0 <= i <= |s| - |text| && OccursAt(s, text, i);
      assert (s + more)[i..i + |text|] == s[i..i + |text|];
      assert OccursAt(s + more, text, i);
    }
    assert OccursAt(more + text, text, |more|);
  }

  lemma {:induction false} MergeKeepsText(turn: Turn, added: string, side: Side, text: string)
    requires HoldsAt(turn, side, text)
    ensures HoldsAt(MergeText(turn, added), side, text)
  {
    var s := turn.content.text;
    assert s + "\n" + added == s + ("\n" + added);
    ContainsMore(s, "\n" + added, text);
  }

  lemma {:induction false} StepKeepsText(turns: seq<Turn>, m: Message, side: Side, text: string)
    requires HoldsText(turns, side, text)
    ensures HoldsText(Step(turns, m), side, text)
  {
    var k :| 0 <= k < |turns| && HoldsAt(turns[k], side, text);
    var out := Step(turns, m);
    if k == |turns| - 1 && (m.role == User || m.role == Assistant) {
      MergeKeepsText(turns[k], TrimSpace(m.content), side, text);
    }
    assert HoldsAt(out[k], side, text);
  }

  lemma {:induction false} FlushHoldsText(turns: seq<Turn>, side: Side, content: string)
    requires TrimSpace(content) != "" && !(LastIs(turns, side) && turns[|turns| - 1].content.Blocks?)
    ensures HoldsText(FlushText(turns, side, content), side, TrimSpace(content))
  {
    var text, out := TrimSpace(content), FlushText(turns, side, content);
    if LastIs(turns, side) {
      var s := turns[|turns| - 1].content.text;
      ContainsMore("", s + "\n", text);
      assert HoldsAt(out[|turns| - 1], side, text);
    } else {
      ContainsMore("", "", text);
      assert "" + text == text;
      assert HoldsAt(out[|turns|], side, text);
    }
  }

  lemma {:induction false} LastTextShown(front: seq<Message>, m: Message)
    requires KindOf(m) in {UserText, AssistantText}
    requires if KindOf(m) == UserText then Opener(front) != Result else Opener(front) != Calls
    ensures HoldsText(Step(Turns(front), m), if m.role == User then UserSide else AssistantSide, TrimSpace(m.content))
  {
    OpenerCorrect(front);
    FlushHoldsText(Turns(front), if m.role == User then UserSide else AssistantSide, m.content);
  }

  /** Every text of a conversation that is not blank stands, without surrounding blanks, in a turn
      of its side, unless it leaves no trace because it joins a turn of blocks. */
  lemma {:induction false} TextsAreShown(messages: seq<Message>, i: nat)
    requires i < |messages| && KindOf(messages[i]) in {UserText, AssistantText}
    requires KindOf(messages[i]) == UserText ==> Opener(messages[..i]) != Result
    requires KindOf(messages[i]) == AssistantText ==> Opener(messages[..i]) != Calls
    ensures HoldsText(Turns(messages), if messages[i].role == User then UserSide else AssistantSide,
                      TrimSpace(messages[i].content))
  {
    var n := |messages| - 1;
    var side := if messages[i].role == User then UserSide else AssistantSide;
    if i < n {
      assert messages[..n][..i] == messages[..i];
      TextsAreShown(messages[..n], i);
      StepKeepsText(Turns(messages[..n]), messages[n], side, TrimSpace(messages[i].content));
    } else {
      LastTextShown(messages[..n], messages[n]);
    }
  }

  lemma {:induction false} JoinHolds(parts: seq<string>, sep: string, k: nat)
    requires k < |parts|
    ensures Contains(Join(parts, sep), parts[k])
  {
    if |parts| == 1 {
      ContainsMore("", "", parts[0]);
      assert "" + parts[0] == parts[0];
    } else {
      var rest := Join(parts[1..], sep);
      assert Join(parts, sep) == parts[0] + (sep + rest);
      if k == 0 {
        ContainsMore("", "", parts[0]);
        assert "" + parts[0] == parts[0];
        ContainsMore(parts[0], sep + rest, parts[0]);
      } else {
        JoinHolds(parts[1..], sep, k - 1);
        ContainsAfter(parts[0] + sep, rest, parts[k]);
        assert parts[0] + (sep + rest) == (parts[0] + sep) + rest;
      }
    }
  }

  lemma {:induction false} ContainsAfter(before: string, s: string, text: string)
    requires Contains(s, text)
    ensures Contains(before + s, text)
  {
    var i :| 0 <= i <= |s| - |text| && OccursAt(s, text, i);
    assert (before + s)[|before| + i..|before| + i + |text|] == s[i..i + |text|];
    assert OccursAt(before + s, text, |before| + i);
  }

  lemma {:induction false} PartsHold(messages: seq<Message>, i: nat) returns (k: nat)
    requires i < |messages| && messages[i].role == System && TrimSpace(messages[i].content) != ""
    ensures k < |SystemParts(messages)| && SystemParts(messages)[k] == messages[i].content
  {
    var n := |messages| - 1;
    if i < n {
      k := PartsHold(messages[..n], i);
    } else {
      k := |SystemParts(messages[..n])|;
    }
  }

  /** Every system message that is not blank stands in the system text. */
  lemma {:induction false} SystemsAreShown(messages: seq<Message>, i: nat)
    requires i < |messages| && messages[i].role == System && TrimSpace(messages[i].content) != ""
    ensures Contains(Join(SystemParts(messages), "\n\n"), messages[i].content)
  {
    var k := PartsHold(messages, i);
    JoinHolds(SystemParts(messages), "\n\n", k);
  }
}
