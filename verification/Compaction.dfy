/** The conversation and its two compactors (internal/agent/context.go). */
module Compaction {
  import opened Base
  import opened Messages

  function Chars(messages: seq<Message>): nat {
    if messages == [] then 0 else Chars(messages[..|messages| - 1]) + |messages[|messages| - 1].content|
  }

  function Systems(messages: seq<Message>): seq<Message> {
    if messages == [] then []
    else
      var front, last := Systems(messages[..|messages| - 1]), messages[|messages| - 1];
      if last.role == System then front + [last] else front
  }

  function Others(messages: seq<Message>): seq<Message> {
    if messages == [] then []
    else
      var front, last := Others(messages[..|messages| - 1]), messages[|messages| - 1];
      if last.role == System then front else front + [last]
  }

  /** The conversation is small enough to be left alone. */
  predicate Fits(messages: seq<Message>, maxTokens: int) {
    Chars(messages) / 4 <= maxTokens
  }

  // ---- Compact: newest first while they fit ----

  /** Which messages the greedy pass keeps, going from the newest to the oldest. */
  function Picks(messages: seq<Message>, remaining: int): (picks: seq<bool>)
    ensures |picks| == |messages|
  {
    if messages == [] then []
    else
      var last := messages[|messages| - 1];
      var take := last.role != System && remaining >= |last.content|;
      Picks(messages[..|messages| - 1], if take then remaining - |last.content| else remaining) + [take]
  }

  /** The picked messages, in conversation order. */
  function Select(messages: seq<Message>, picks: seq<bool>): seq<Message>
    requires |picks| == |messages|
  {
    if messages == [] then []
    else
      var n := |messages| - 1;
      Select(messages[..n], picks[..n]) + if picks[n] then [messages[n]] else []
  }

  function Budget(messages: seq<Message>, maxTokens: int): int {
    maxTokens * 4 - Chars(Systems(messages))
  }

  function Compacted(messages: seq<Message>, maxTokens: int): seq<Message> {
    if Fits(messages, maxTokens) then messages
    else Select(messages, Picks(messages, Budget(messages, maxTokens))) + Systems(messages)
  }

  /** A choice of non-system messages that stays within the budget. */
  ghost predicate Affordable(messages: seq<Message>, picks: seq<bool>, remaining: int) {
    && |picks| == |messages|
    && (forall i | 0 <= i < |picks| :: picks[i] ==> messages[i].role != System)
    && Chars(Select(messages, picks)) <= remaining
  }

  /** a beats or equals b, comparing from the newest message. */
  ghost predicate NewestFirst(a: seq<bool>, b: seq<bool>)
    requires |a| == |b|
  {
    a == b || exists i | 0 <= i < |a| :: a[i] && !b[i] && a[i + 1..] == b[i + 1..]
  }

  lemma {:induction false} CharsAppend(messages: seq<Message>, m: Message)
    ensures Chars(messages + [m]) == Chars(messages) + |m.content|
  {
    assert (messages + [m])[..|messages|] == messages;
  }

  lemma {:induction false} CharsConcat(a: seq<Message>, b: seq<Message>)
    ensures Chars(a + b) == Chars(a) + Chars(b)
  {
    if b == [] {
      assert a + b == a;
    } else {
      assert (a + b)[..|a + b| - 1] == a + b[..|b| - 1];
      CharsConcat(a, b[..|b| - 1]);
    }
  }

  lemma {:induction false} SelectAffordable(messages: seq<Message>, picks: seq<bool>, remaining: int)
    requires messages != [] && Affordable(messages, picks, remaining)
    ensures var n := |messages| - 1;
            Affordable(messages[..n], picks[..n], if picks[n] then remaining - |messages[n].content| else remaining)
  {
    var n := |messages| - 1;
    if picks[n] {
      CharsAppend(Select(messages[..n], picks[..n]), messages[n]);
    } else {
      assert Select(messages, picks) == Select(messages[..n], picks[..n]);
    }
  }

  /** The greedy choice fits whatever budget is not already overdrawn. */
  lemma {:induction false} PicksAffordable(messages: seq<Message>, remaining: int)
    requires remaining >= 0
    ensures Affordable(messages, Picks(messages, remaining), remaining)
  {
    if messages != [] {
      var n := |messages| - 1;
      var last := messages[n];
      var take := last.role != System && remaining >= |last.content|;
      var rest := if take then remaining - |last.content| else remaining;
      PicksAffordable(messages[..n], rest);
      var picks := Picks(messages, remaining);
      assert picks[..n] == Picks(messages[..n], rest);
      if take {
        CharsAppend(Select(messages[..n], picks[..n]), last);
      } else {
        assert Select(messages, picks) == Select(messages[..n], picks[..n]);
      }
    }
  }

  lemma {:induction false} NewestFirstExtend(a: seq<bool>, b: seq<bool>, last: bool)
    requires |a| == |b| && NewestFirst(a, b)
    ensures NewestFirst(a + [last], b + [last])
  {
    if a != b {
      var i :| 0 <= i < |a| && a[i] && !b[i] && a[i + 1..] == b[i + 1..];
      var a', b' := a + [last], b + [last];
      assert a'[i + 1..] == a[i + 1..] + [last] && b'[i + 1..] == b[i + 1..] + [last];
      assert a'[i] && !b'[i] && a'[i + 1..] == b'[i + 1..];
    }
  }

  /** No affordable choice beats the greedy one: the kept set is the lexicographically
      greatest counting from the newest message. */
  lemma {:induction false} GreedyIsGreatest(messages: seq<Message>, remaining: int, picks: seq<bool>)
    requires Affordable(messages, picks, remaining)
    ensures NewestFirst(Picks(messages, remaining), picks)
  {
    if messages != [] {
      var n := |messages| - 1;
      var last, best := messages[n], Picks(messages, remaining);
      SelectAffordable(messages, picks, remaining);
      if picks[n] {
        CharsAppend(Select(messages[..n], picks[..n]), last);
      }
      if best[n] == picks[n] {
        var rest := if best[n] then remaining - |last.content| else remaining;
        GreedyIsGreatest(messages[..n], rest, picks[..n]);
        NewestFirstExtend(Picks(messages[..n], rest), picks[..n], picks[n]);
        assert picks == picks[..n] + [picks[n]];
      } else {
        assert best[n + 1..] == picks[n + 1..];
      }
    }
  }

  /** When Compact acts and the system text fits, the result is within the limit; it is a
      choice of the other messages, in order, followed by all system messages. */
  lemma {:induction false} CompactedWithinLimit(messages: seq<Message>, maxTokens: int, picks: seq<bool>)
    requires !Fits(messages, maxTokens) && Budget(messages, maxTokens) >= 0
    requires picks == Picks(messages, Budget(messages, maxTokens))
    ensures Compacted(messages, maxTokens) == Select(messages, picks) + Systems(messages)
    ensures Chars(Compacted(messages, maxTokens)) <= 4 * maxTokens && Fits(Compacted(messages, maxTokens), maxTokens)
    ensures forall i | 0 <= i < |messages| :: picks[i] ==> messages[i].role != System
  {
    PicksAffordable(messages, Budget(messages, maxTokens));
    CharsConcat(Select(messages, picks), Systems(messages));
  }

  lemma {:induction false} OverdrawnPicksNone(messages: seq<Message>, remaining: int)
    requires remaining < 0
    ensures Select(messages, Picks(messages, remaining)) == []
  {
    if messages != [] {
      var n := |messages| - 1;
      OverdrawnPicksNone(messages[..n], remaining);
      assert Picks(messages, remaining)[..n] == Picks(messages[..n], remaining);
    }
  }

  /** What Compact leaves of any conversation: all of it if that fits; else the system messages
      behind the choice of the others that fits beside them and beats every other such choice;
      none of the others if the system messages alone are too long. */
  lemma {:induction false} CompactedIs(messages: seq<Message>, maxTokens: int)
    ensures var out, left := Compacted(messages, maxTokens), 4 * maxTokens - Chars(Systems(messages));
            if Chars(messages) / 4 <= maxTokens then out == messages
            else if left < 0 then out == Systems(messages)
            else exists picks ::
              && Affordable(messages, picks, left) && out == Select(messages, picks) + Systems(messages)
              && (forall other | Affordable(messages, other, left) :: NewestFirst(picks, other))
  {
    var left := Budget(messages, maxTokens);
    var picks := Picks(messages, left);
    if Chars(messages) / 4 > maxTokens {
      if left < 0 {
        OverdrawnPicksNone(messages, left);
      } else {
        PicksAffordable(messages, left);
        forall other | Affordable(messages, other, left) ensures NewestFirst(picks, other) {
          GreedyIsGreatest(messages, left, other);
        }
      }
    }
  }

  // ---- SmartCompact: first task, summary, newest six ----

  const RECENT := 6

  /** The index of the first user message, or the length. */
  function FirstUser(messages: seq<Message>): (f: nat)
    ensures f <= |messages|
    ensures f < |messages| ==> messages[f].role == User
    ensures forall i | 0 <= i < f :: messages[i].role != User
  {
    if messages == [] then 0
    else
      var f := FirstUser(messages[..|messages| - 1]);
      if f < |messages| - 1 || messages[|messages| - 1].role == User then f else |messages|
  }

  function Without(messages: seq<Message>, i: nat): seq<Message> {
    if i < |messages| then messages[..i] + messages[i + 1..] else messages
  }

  /** The messages summarised away: all but the first user message and the newest six. */
  function ToSummarize(others: seq<Message>): seq<Message>
    requires |others| > RECENT
  {
    Without(others[..|others| - RECENT], FirstUser(others))
  }

  /** The messages kept: the newest six, without the first user message. */
  function ToKeep(others: seq<Message>): seq<Message>
    requires |others| > RECENT
  {
    var cut, f := |others| - RECENT, FirstUser(others);
    if f >= cut then Without(others[cut..], f - cut) else others[cut..]
  }

  function TaskMessage(others: seq<Message>): seq<Message> {
    if FirstUser(others) < |others| then [others[FirstUser(others)]] else []
  }

  function SmartCompacted(summary: seq<Message> -> string, messages: seq<Message>, maxTokens: int): seq<Message> {
    var others := Others(messages);
    if Fits(messages, maxTokens) || |others| <= RECENT then messages
    else Systems(messages) + TaskMessage(others) + [UserMessage(summary(ToSummarize(others)))] + ToKeep(others)
  }

  /** Every non-system message goes to exactly one place, and at most eight remain. */
  lemma {:induction false} SmartPartition(others: seq<Message>)
    requires |others| > RECENT
    ensures multiset(others) == multiset(TaskMessage(others)) + multiset(ToSummarize(others)) + multiset(ToKeep(others))
    ensures |TaskMessage(others)| + 1 + |ToKeep(others)| ==
            if FirstUser(others) < |others| - RECENT then 8 else 7
  {
    var cut, f := |others| - RECENT, FirstUser(others);
    var early, recent := others[..cut], others[cut..];
    assert others == early + recent;
    if f < cut {
      WithoutMultiset(early, f);
      assert early[f] == others[f];
    } else if f < |others| {
      WithoutMultiset(recent, f - cut);
      assert recent[f - cut] == others[f];
    }
  }

  lemma {:induction false} WithoutMultiset(s: seq<Message>, i: nat)
    requires i < |s|
    ensures multiset(s) == multiset(Without(s, i)) + multiset([s[i]])
  {
    assert s == s[..i] + [s[i]] + s[i + 1..];
  }

  lemma {:induction false} SplitConcat(a: seq<Message>, b: seq<Message>)
    ensures Systems(a + b) == Systems(a) + Systems(b) && Others(a + b) == Others(a) + Others(b)
  {
    if b == [] {
      assert a + b == a;
    } else {
      assert (a + b)[..|a + b| - 1] == a + b[..|b| - 1];
      SplitConcat(a, b[..|b| - 1]);
    }
  }

  lemma {:induction false} SystemsOnly(messages: seq<Message>)
    ensures Systems(Systems(messages)) == Systems(messages) && Others(Systems(messages)) == []
    ensures Systems(Others(messages)) == [] && Others(Others(messages)) == Others(messages)
    ensures forall m | m in Others(messages) :: m.role != System
  {
    if messages != [] {
      var front, last := messages[..|messages| - 1], messages[|messages| - 1];
      SystemsOnly(front);
      SplitConcat(Systems(front), [last]);
      SplitConcat(Others(front), [last]);
      assert [last][..0] == [];
    }
  }

  lemma {:induction false} FirstUserIs(messages: seq<Message>, i: nat)
    requires i < |messages| && messages[i].role == User && forall j | 0 <= j < i :: messages[j].role != User
    ensures FirstUser(messages) == i
  {
  }

  lemma {:induction false} ToKeepNotSystem(others: seq<Message>)
    requires |others| > RECENT && forall m | m in others :: m.role != System
    ensures Systems(ToKeep(others)) == [] && Others(ToKeep(others)) == ToKeep(others)
  {
    forall m | m in ToKeep(others) ensures m in others {}
    NoSystems(ToKeep(others));
  }

  lemma {:induction false} NoSystems(messages: seq<Message>)
    requires forall m | m in messages :: m.role != System
    ensures Systems(messages) == [] && Others(messages) == messages
  {
    if messages != [] {
      NoSystems(messages[..|messages| - 1]);
    }
  }

  /** A compaction that acts keeps the system messages as they are, and leaves the task, the
      summary and the kept messages as the others. */
  lemma {:induction false} SmartCompactedParts(summary: seq<Message> -> string, messages: seq<Message>, maxTokens: int)
    requires !Fits(messages, maxTokens) && |Others(messages)| > RECENT
    ensures var others, out := Others(messages), SmartCompacted(summary, messages, maxTokens);
            && Systems(out) == Systems(messages)
            && Others(out) == TaskMessage(others) + [UserMessage(summary(ToSummarize(others)))] + ToKeep(others)
  {
    var others := Others(messages);
    var sys, task, sum, keep := Systems(messages), TaskMessage(others), [UserMessage(summary(ToSummarize(others)))],
      ToKeep(others);
    SystemsOnly(messages);
    ToKeepNotSystem(others);
    NoSystems(task);
    NoSystems(sum);
    SplitConcat(sys, task);
    SplitConcat(sys + task, sum);
    SplitConcat(sys + task + sum, keep);
  }

  /** The first user message is at f. */
  ghost predicate IsFirstUser(messages: seq<Message>, f: nat) {
    f < |messages| && messages[f].role == User && forall i | 0 <= i < f :: messages[i].role != User
  }

  lemma {:induction false} SplitAround(others: seq<Message>, f: nat, cut: nat)
    requires f < |others| && cut <= |others|
    ensures f < cut ==> Without(others[..cut], f) == others[..f] + others[f + 1..cut]
    ensures f >= cut ==> Without(others[..cut], f) == others[..cut]
    ensures f >= cut ==> Without(others[cut..], f - cut) == others[cut..f] + others[f + 1..]
  {
    if f < cut {
      assert others[..cut][..f] == others[..f] && others[..cut][f + 1..] == others[f + 1..cut];
    } else {
      assert others[cut..][..f - cut] == others[cut..f] && others[cut..][f - cut + 1..] == others[f + 1..];
    }
  }

  /** What a compaction that acts makes of the others when the first user message is at f: the
      older ones without it are summarised, the newest six without it are kept. */
  lemma {:induction false} PartsAround(others: seq<Message>, f: nat)
    requires |others| > 6 && IsFirstUser(others, f)
    ensures var cut := |others| - 6;
            && TaskMessage(others) == [others[f]]
            && ToSummarize(others) == (if f < cut then others[..f] + others[f + 1..cut] else others[..cut])
            && ToKeep(others) == (if f < cut then others[cut..] else others[cut..f] + others[f + 1..])
  {
    FirstUserIs(others, f);
    SplitAround(others, f, |others| - RECENT);
  }

  lemma {:induction false} PartsWithoutUser(others: seq<Message>)
    requires |others| > 6 && forall m | m in others :: m.role != User
    ensures var cut := |others| - 6;
            TaskMessage(others) == [] && ToSummarize(others) == others[..cut] && ToKeep(others) == others[cut..]
  {
    assert FirstUser(others) == |others|;
  }

  /** What SmartCompact leaves of any conversation: all of it if it fits or has at most six
      messages beside the system ones; else these, the first user message if there is one, the
      summary, and the kept messages, in this order. */
  lemma {:induction false} SmartCompactedIs(summary: seq<Message> -> string, messages: seq<Message>, maxTokens: int)
    ensures var others, out := Others(messages), SmartCompacted(summary, messages, maxTokens);
            if Chars(messages) / 4 <= maxTokens || |others| <= 6 then out == messages
            else out == Systems(messages) + (TaskMessage(others) + [UserMessage(summary(ToSummarize(others)))]) +
                        ToKeep(others)
  {
    var others := Others(messages);
    if |others| > RECENT {
      var task, note := TaskMessage(others), [UserMessage(summary(ToSummarize(others)))];
      assert Systems(messages) + task + note == Systems(messages) + (task + note);
    }
  }

  lemma {:induction false} SizesAdd(messages: seq<Message>)
    ensures |messages| == |Systems(messages)| + |Others(messages)|
  {
    if messages != [] {
      SizesAdd(messages[..|messages| - 1]);
    }
  }

  /** A compaction that acts lengthens the conversation exactly if there are seven other
      messages and the first of them is the task: one is replaced by the summary of none. */
  lemma {:induction false} LengthensIff(summary: seq<Message> -> string, messages: seq<Message>, maxTokens: int)
    requires !Fits(messages, maxTokens) && |Others(messages)| > RECENT
    ensures |SmartCompacted(summary, messages, maxTokens)| > |messages| <==>
            |Others(messages)| == RECENT + 1 && FirstUser(Others(messages)) == 0
  {
    SizesAdd(messages);
    SmartPartition(Others(messages));
  }

  /** A compaction that acts meets the token target exactly if the system messages, the task,
      the summary and the kept messages already do. */
  lemma {:induction false} TargetMetIff(summary: seq<Message> -> string, messages: seq<Message>, maxTokens: int)
    requires !Fits(messages, maxTokens) && |Others(messages)| > RECENT
    ensures var others := Others(messages);
            Fits(SmartCompacted(summary, messages, maxTokens), maxTokens) <==>
            Chars(Systems(messages)) + Chars(TaskMessage(others)) + |summary(ToSummarize(others))| +
              Chars(ToKeep(others)) < 4 * maxTokens + 4
  {
    var others := Others(messages);
    var sys, task, sum, keep := Systems(messages), TaskMessage(others), [UserMessage(summary(ToSummarize(others)))],
      ToKeep(others);
    CharsConcat(sys, task);
    CharsConcat(sys + task, sum);
    CharsConcat(sys + task + sum, keep);
    CharsAppend([], sum[0]);
    assert [] + [sum[0]] == sum;
  }

  /** For every target some compaction acts and misses it: seven messages of which each is
      too long by itself. */
  lemma {:induction false} TargetMissed(summary: seq<Message> -> string, maxTokens: nat, text: string)
      returns (messages: seq<Message>)
    requires |text| >= 4 * maxTokens + 4
    ensures !Fits(messages, maxTokens) && |Others(messages)| > RECENT
    ensures !Fits(SmartCompacted(summary, messages, maxTokens), maxTokens)
  {
    messages := seq(7, i => UserMessage(text));
    NoSystems(messages);
    CharsOfLast(messages);
    TargetMetIff(summary, messages, maxTokens);
    CharsOfLast(ToKeep(messages));
  }

  lemma {:induction false} CharsOfLast(messages: seq<Message>)
    requires messages != []
    ensures Chars(messages) >= |messages[|messages| - 1].content|
  {
  }

  // ---- Any sequence of adds and compactions ----

  datatype Op = Add(m: Message) | Smart(maxTokens: int)

  function Do(summary: seq<Message> -> string, messages: seq<Message>, op: Op): seq<Message> {
    match op
    case Add(m) => messages + [m]
    case Smart(maxTokens) => SmartCompacted(summary, messages, maxTokens)
  }

  function DoAll(summary: seq<Message> -> string, messages: seq<Message>, ops: seq<Op>): seq<Message> {
    if ops == [] then messages
    else Do(summary, DoAll(summary, messages, ops[..|ops| - 1]), ops[|ops| - 1])
  }

  function AddedBy(op: Op): seq<Message> {
    match op case Add(m) => [m] case Smart(_) => []
  }

  function Added(ops: seq<Op>): seq<Message> {
    if ops == [] then [] else Added(ops[..|ops| - 1]) + AddedBy(ops[|ops| - 1])
  }

  ghost predicate StartsWithTask(messages: seq<Message>, task: Message) {
    task.role == User && Others(messages) != [] && Others(messages)[0] == task
  }

  lemma {:induction false} AddKeepsTask(messages: seq<Message>, m: Message, task: Message)
    requires StartsWithTask(messages, task)
    ensures StartsWithTask(messages + [m], task) && Systems(messages + [m]) == Systems(messages) + Systems([m])
  {
    SplitConcat(messages, [m]);
  }

  lemma {:induction false} SmartKeepsTask(summary: seq<Message> -> string, messages: seq<Message>, maxTokens: int,
                                          task: Message)
    requires StartsWithTask(messages, task)
    ensures StartsWithTask(SmartCompacted(summary, messages, maxTokens), task)
    ensures Systems(SmartCompacted(summary, messages, maxTokens)) == Systems(messages)
  {
    if !Fits(messages, maxTokens) && |Others(messages)| > RECENT {
      SmartCompactedParts(summary, messages, maxTokens);
      FirstUserIs(Others(messages), 0);
    }
  }

  lemma {:induction false} Opening(prompt: string, task: Message)
    requires task.role == User
    ensures var opening := [SystemMessage(prompt), task];
            Systems(opening) == [SystemMessage(prompt)] && Others(opening) == [task] && StartsWithTask(opening, task)
  {
    var head, tail := [SystemMessage(prompt)], [task];
    assert [SystemMessage(prompt), task] == head + tail && head[..0] == [];
    SplitConcat(head, tail);
    NoSystems(tail);
  }

  lemma {:induction false} DoKeepsTask(summary: seq<Message> -> string, messages: seq<Message>, op: Op, task: Message)
    requires StartsWithTask(messages, task)
    ensures StartsWithTask(Do(summary, messages, op), task)
    ensures Systems(Do(summary, messages, op)) == Systems(messages) + Systems(AddedBy(op))
  {
    match op {
      case Add(m) => AddKeepsTask(messages, m, task);
      case Smart(maxTokens) => SmartKeepsTask(summary, messages, maxTokens, task);
    }
  }

  lemma {:induction false} TaskIsFirst(messages: seq<Message>, task: Message)
    requires StartsWithTask(messages, task)
    ensures FirstUser(Others(messages)) == 0
  {
    FirstUserIs(Others(messages), 0);
  }

  lemma {:induction false} OpsKeepTask(summary: seq<Message> -> string, opening: seq<Message>, ops: seq<Op>,
                                       task: Message)
    requires StartsWithTask(opening, task)
    ensures StartsWithTask(DoAll(summary, opening, ops), task)
    ensures Systems(DoAll(summary, opening, ops)) == Systems(opening) + Systems(Added(ops))
  {
    if ops != [] {
      var front, last := ops[..|ops| - 1], ops[|ops| - 1];
      OpsKeepTask(summary, opening, front, task);
      SplitConcat(Added(front), AddedBy(last));
      DoKeepsTask(summary, DoAll(summary, opening, front), last, task);
    }
  }

  /** From an opening of a system prompt and the task, over any sequence of adds and
      compactions: every system message ever added is still there, in order, and the task is
      still the first of the other messages. */
  lemma {:induction false} TaskSurvives(summary: seq<Message> -> string, prompt: string, task: string, ops: seq<Op>)
    ensures var out := DoAll(summary, [SystemMessage(prompt), UserMessage(task)], ops);
            && Systems(out) == [SystemMessage(prompt)] + Systems(Added(ops))
            && StartsWithTask(out, UserMessage(task)) && FirstUser(Others(out)) == 0
  {
    var opening, first := [SystemMessage(prompt), UserMessage(task)], UserMessage(task);
    Opening(prompt, first);
    OpsKeepTask(summary, opening, ops, first);
    TaskIsFirst(DoAll(summary, opening, ops), first);
  }

  // ---- The conversation object ----

  class Context {
    var messages: seq<Message>

    constructor ()
      ensures messages == []
    {
      messages := [];
    }

    method Add(m: Message)
      modifies this
      ensures messages == old(messages) + [m]
    {
      messages := messages + [m];
    }

    method TotalChars() returns (total: nat)
      ensures total == Chars(messages)
    {
      total := 0;
      for i := 0 to |messages|
        invariant total == Chars(messages[..i])
      {
        assert messages[..i + 1][..i] == messages[..i];
        total := total + |messages[i].content|;
      }
      assert messages[..|messages|] == messages;
    }

    method TokenCount() returns (tokens: nat)
      ensures tokens == Chars(messages) / 4
    {
      var total := TotalChars();
      tokens := total / 4;
    }

    /** Compact: the newest messages that still fit go in front of the system messages. */
    method Compact(maxTokens: int)
      modifies this
      ensures messages == Compacted(old(messages), maxTokens)
    {
      var total := TotalChars();
      if total / 4 <= maxTokens {
        return;
      }
      var systems, _ := SplitRoles(messages);
      var used := 0;
      for i := 0 to |systems|
        invariant used == Chars(systems[..i])
      {
        assert systems[..i + 1][..i] == systems[..i];
        used := used + |systems[i].content|;
      }
      assert systems[..|systems|] == systems;
      messages := KeepNewest(messages, systems, maxTokens * 4 - used);
    }

    /** SmartCompact; summary stands for the wording of the summary message. */
    method SmartCompact(summary: seq<Message> -> string, maxTokens: int)
      modifies this
      ensures messages == SmartCompacted(summary, old(messages), maxTokens)
    {
      var total := TotalChars();
      if total / 4 <= maxTokens {
        return;
      }
      var systems, others := SplitRoles(messages);
      if |others| <= RECENT {
        return;
      }
      var firstUser, toSummarize, toKeep := SplitOthers(others);
      messages := systems + firstUser + [UserMessage(summary(toSummarize))] + toKeep;
    }
  }

  method SplitRoles(messages: seq<Message>) returns (systems: seq<Message>, others: seq<Message>)
    ensures systems == Systems(messages) && others == Others(messages)
  {
    systems, others := [], [];
    for i := 0 to |messages|
      invariant systems == Systems(messages[..i]) && others == Others(messages[..i])
    {
      assert messages[..i + 1][..i] == messages[..i];
      if messages[i].role == System {
        systems := systems + [messages[i]];
      } else {
        others := others + [messages[i]];
      }
    }
    assert messages[..|messages|] == messages;
  }

  /** The messages the greedy pass keeps. */
  function Kept(messages: seq<Message>, remaining: int): seq<Message> {
    Select(messages, Picks(messages, remaining))
  }

  lemma {:induction false} KeptLast(messages: seq<Message>, i: nat, remaining: int)
    requires i < |messages|
    ensures var last := messages[i];
            Kept(messages[..i + 1], remaining) ==
            if last.role != System && remaining >= |last.content|
            then Kept(messages[..i], remaining - |last.content|) + [last] else Kept(messages[..i], remaining)
  {
    var upto, last := messages[..i + 1], messages[i];
    var take := last.role != System && remaining >= |last.content|;
    assert upto[..i] == messages[..i];
    assert Picks(upto, remaining)[..i] == Picks(messages[..i], if take then remaining - |last.content| else remaining);
  }

  /** Prepends messages from the newest to the oldest while they fit. */
  method KeepNewest(messages: seq<Message>, systems: seq<Message>, budget: int) returns (compacted: seq<Message>)
    ensures compacted == Kept(messages, budget) + systems
  {
    compacted := systems;
    var i, remaining := |messages|, budget;
    assert messages[..i] == messages;
    while i > 0
      invariant 0 <= i <= |messages|
      invariant Kept(messages, budget) + systems == Kept(messages[..i], remaining) + compacted
    {
      i := i - 1;
      var msg := messages[i];
      KeptLast(messages, i, remaining);
      if msg.role == System {
        continue;
      }
      var msgChars := |msg.content|;
      if remaining >= msgChars {
        remaining := remaining - msgChars;
        assert Kept(messages[..i], remaining) + [msg] + compacted == Kept(messages[..i], remaining) +
               ([msg] + compacted);
        compacted := [msg] + compacted;
      }
    }
    assert Kept(messages[..0], remaining) == [];
    assert [] + compacted == compacted;
  }

  /** The part of s, standing at offset cut of a longer list, without that list's entry f. */
  function Part(s: seq<Message>, cut: nat, f: nat): seq<Message> {
    if f >= cut then Without(s, f - cut) else s
  }

  lemma {:induction false} PartAppend(s: seq<Message>, m: Message, cut: nat, f: nat)
    ensures Part(s + [m], cut, f) == if f == cut + |s| then s else Part(s, cut, f) + [m]
  {
  }

  /** How the split of a prefix grows by one message. */
  lemma {:induction false} SplitStep(others: seq<Message>, cut: nat, i: nat)
    requires i < |others| && cut <= |others|
    ensures var before, after := others[..i], others[..i + 1];
            var f, f', isTask := FirstUser(before), FirstUser(after), others[i].role == User &&
              TaskMessage(others[..i]) == [];
            var added := if isTask then [] else [others[i]];
            && TaskMessage(after) == (if isTask then [others[i]] else TaskMessage(before))
            && (i < cut ==> Part(after, 0, f') == Part(before, 0, f) + added)
            && (i >= cut ==> Part(others[..cut], 0, f') == Part(others[..cut], 0, f))
            && (i >= cut ==> Part(others[cut..i + 1], cut, f') == Part(others[cut..i], cut, f) + added)
  {
    var before, after := others[..i], others[..i + 1];
    assert after[..i] == before && after == before + [others[i]];
    PartAppend(before, others[i], 0, FirstUser(after));
    if i >= cut {
      assert others[cut..i + 1] == others[cut..i] + [others[i]];
      PartAppend(others[cut..i], others[i], cut, FirstUser(after));
    }
  }

  /** One pass that finds the first user message and splits the rest into old and recent. */
  method SplitOthers(others: seq<Message>)
      returns (firstUser: seq<Message>, toSummarize: seq<Message>, toKeep: seq<Message>)
    requires |others| > RECENT
    ensures firstUser == TaskMessage(others) && toSummarize == ToSummarize(others) && toKeep == ToKeep(others)
  {
    firstUser, toSummarize, toKeep := [], [], [];
    var cut := |others| - RECENT;
    for i := 0 to |others|
      invariant firstUser == TaskMessage(others[..i])
      invariant toSummarize == Part(others[..if i < cut then i else cut], 0, FirstUser(others[..i]))
      invariant toKeep == if i < cut then [] else Part(others[cut..i], cut, FirstUser(others[..i]))
    {
      SplitStep(others, cut, i);
      if others[i].role == User && firstUser == [] {
        firstUser := [others[i]];
        continue;
      }
      if i >= cut {
        toKeep := toKeep + [others[i]];
      } else {
        toSummarize := toSummarize + [others[i]];
      }
    }
    assert others[..|others|] == others;
  }
}
