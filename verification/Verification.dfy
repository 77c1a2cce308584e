/** The gate that keeps a worker from reporting files it never wrote
    (internal/agent/orchestrated.go, verifyFileCreation; internal/agent/worker.go,
    verifyArtifacts and tagBuildFailureIfNeeded). */
module Verification {
  import opened Base
  import opened Messages
  import opened Worker

  /** The arguments of a file tool call. */
  datatype FileArgs = FileArgs(operation: string, path: string)

  /** One answer of the file tool to operation=exists. */
  datatype Probe = Says(text: string) | ProbeError

  datatype Presence = Absent | EmptyFile | Confirmed

  /** What the gate cannot see into: the decoding of call arguments, lower-casing, the file
      names mentioned in prose, the retry nudge, and the disk at the n-th check. */
  datatype Gate = Gate(
    parse: string -> Option<FileArgs>,
    lower: string -> string,
    claimed: string -> seq<string>,
    retryNudge: seq<string> -> string,
    disk: (nat, string) -> Probe)

  const FAILED_TAG := "[VERIFICATION FAILED"
  const PARTIAL_TAG := "[VERIFICATION PARTIAL"

  // ---- The paths a conversation wrote to ----

  /** The path a call writes, appends or edits, if it is a file call with such a path. */
  function TargetOf(gate: Gate, call: ToolCall): Option<string> {
    if call.name != "file" then None
    else
      match gate.parse(call.args)
      case None => None
      case Some(args) =>
        var op := gate.lower(TrimSpace(args.operation));
        var p := TrimSpace(args.path);
        if (op == "write" || op == "append" || op == "edit") && p != "" then Some(p) else None
  }

  function AddTarget(gate: Gate, paths: seq<string>, call: ToolCall): seq<string> {
    match TargetOf(gate, call)
    case Some(p) => if p in paths then paths else paths + [p]
    case None => paths
  }

  function AddTargets(gate: Gate, paths: seq<string>, calls: seq<ToolCall>): seq<string> {
    if calls == [] then paths
    else AddTarget(gate, AddTargets(gate, paths, calls[..|calls| - 1]), calls[|calls| - 1])
  }

  function WrittenPaths(gate: Gate, messages: seq<Message>): seq<string> {
    if messages == [] then []
    else
      var paths, last := WrittenPaths(gate, messages[..|messages| - 1]), messages[|messages| - 1];
      if last.role == Assistant then AddTargets(gate, paths, last.toolCalls) else paths
  }

  /** A call of the file tool whose arguments, without surrounding blanks, ask to write, append
      to or edit the path, in whatever case. */
  ghost predicate WritesTo(gate: Gate, call: ToolCall, p: string) {
    call.name == "file" && p != "" &&
    match gate.parse(call.args)
    case None => false
    case Some(args) =>
      TrimSpace(args.path) == p && gate.lower(TrimSpace(args.operation)) in {"write", "append", "edit"}
  }

  lemma {:induction false} TargetIs(gate: Gate, call: ToolCall, p: string)
    ensures TargetOf(gate, call) == Some(p) <==> WritesTo(gate, call, p)
  {
  }

  ghost predicate CallsTarget(gate: Gate, calls: seq<ToolCall>, p: string) {
    exists j | 0 <= j < |calls| :: WritesTo(gate, calls[j], p)
  }

  /** Some assistant message asks to write the path. */
  ghost predicate Targets(gate: Gate, messages: seq<Message>, p: string) {
    exists i | 0 <= i < |messages| :: messages[i].role == Assistant && CallsTarget(gate, messages[i].toolCalls, p)
  }

  predicate Distinct(paths: seq<string>) {
    forall i, j | 0 <= i < j < |paths| :: paths[i] != paths[j]
  }

  method ExtractWrittenPaths(gate: Gate, messages: seq<Message>) returns (paths: seq<string>)
    ensures paths == WrittenPaths(gate, messages)
  {
    paths := [];
    var seen: set<string> := {};
    for i := 0 to |messages|
      invariant paths == WrittenPaths(gate, messages[..i])
      invariant forall p :: p in seen <==> p in paths
    {
      assert messages[..i + 1][..i] == messages[..i];
      var msg := messages[i];
      if msg.role != Assistant {
        continue;
      }
      ghost var before := paths;
      for j := 0 to |msg.toolCalls|
        invariant paths == AddTargets(gate, before, msg.toolCalls[..j])
        invariant forall p :: p in seen <==> p in paths
      {
        assert msg.toolCalls[..j + 1][..j] == msg.toolCalls[..j];
        var target := TargetOf(gate, msg.toolCalls[j]);
        if target.Some? && target.value !in seen {
          seen := seen + {target.value};
          paths := paths + [target.value];
        }
      }
      assert msg.toolCalls[..|msg.toolCalls|] == msg.toolCalls;
    }
    assert messages[..|messages|] == messages;
  }

  lemma {:induction false} CallsTargetLast(gate: Gate, calls: seq<ToolCall>, p: string)
    requires calls != []
    ensures CallsTarget(gate, calls, p) <==>
            CallsTarget(gate, calls[..|calls| - 1], p) || WritesTo(gate, calls[|calls| - 1], p)
  {
    var front := calls[..|calls| - 1];
    if CallsTarget(gate, front, p) {
      var j :| 0 <= j < |front| && WritesTo(gate, front[j], p);
      assert WritesTo(gate, calls[j], p);
    }
    if CallsTarget(gate, calls, p) {
      var j :| 0 <= j < |calls| && WritesTo(gate, calls[j], p);
      assert j < |front| ==> front[j] == calls[j];
    }
  }

  lemma {:induction false} AddTargetsFacts(gate: Gate, paths: seq<string>, calls: seq<ToolCall>)
    ensures paths <= AddTargets(gate, paths, calls)
    ensures Distinct(paths) ==> Distinct(AddTargets(gate, paths, calls))
    ensures forall p :: p in AddTargets(gate, paths, calls) <==> p in paths || CallsTarget(gate, calls, p)
  {
    if calls != [] {
      AddTargetsFacts(gate, paths, calls[..|calls| - 1]);
      forall p ensures p in AddTargets(gate, paths, calls) <==> p in paths || CallsTarget(gate, calls, p) {
        CallsTargetLast(gate, calls, p);
        TargetIs(gate, calls[|calls| - 1], p);
      }
    }
  }

  /** The extracted paths are, once each, exactly those some assistant call targets. */
  lemma {:induction false} WrittenPathsExact(gate: Gate, messages: seq<Message>)
    ensures Distinct(WrittenPaths(gate, messages))
    ensures forall p :: p in WrittenPaths(gate, messages) <==> Targets(gate, messages, p)
  {
    if messages != [] {
      var front, last := messages[..|messages| - 1], messages[|messages| - 1];
      WrittenPathsExact(gate, front);
      AddTargetsFacts(gate, WrittenPaths(gate, front), last.toolCalls);
      forall p {
        TargetsLast(gate, messages, p);
      }
    }
  }

  lemma {:induction false} TargetsLast(gate: Gate, messages: seq<Message>, p: string)
    requires messages != []
    ensures var front, last := messages[..|messages| - 1], messages[|messages| - 1];
            Targets(gate, messages, p) <==>
            Targets(gate, front, p) || (last.role == Assistant && CallsTarget(gate, last.toolCalls, p))
  {
    var front := messages[..|messages| - 1];
    if Targets(gate, front, p) {
      var i :| 0 <= i < |front| && front[i].role == Assistant && CallsTarget(gate, front[i].toolCalls, p);
      assert messages[i] == front[i];
    }
    if Targets(gate, messages, p) {
      var i :| 0 <= i < |messages| && messages[i].role == Assistant && CallsTarget(gate, messages[i].toolCalls, p);
      assert i < |front| ==> front[i] == messages[i];
    }
  }

  /** A longer conversation's paths extend those of its beginning. */
  lemma {:induction false} WrittenPathsExtend(gate: Gate, messages: seq<Message>, more: seq<Message>)
    requires messages <= more
    ensures WrittenPaths(gate, messages) <= WrittenPaths(gate, more)
    decreases |more|
  {
    if |messages| < |more| {
      var front := more[..|more| - 1];
      WrittenPathsExtend(gate, messages, front);
      AddTargetsFacts(gate, WrittenPaths(gate, front), more[|more| - 1].toolCalls);
    } else {
      assert messages == more;
    }
  }

  // ---- One check against the disk ----

  function Classify(gate: Gate, check: nat, p: string): Presence {
    match gate.disk(check, p)
    case ProbeError => Absent
    case Says(text) =>
      if Contains(text, "does not exist") then Absent
      else if Contains(text, "size: 0 bytes") then EmptyFile
      else Confirmed
  }

  function Having(gate: Gate, check: nat, paths: seq<string>, presence: Presence): seq<string> {
    if paths == [] then []
    else
      var front, last := Having(gate, check, paths[..|paths| - 1], presence), paths[|paths| - 1];
      if Classify(gate, check, last) == presence then front + [last] else front
  }

  /** The exists call for the path answered, and not that it does not exist. */
  predicate IsThere(gate: Gate, check: nat, p: string) {
    var probe := gate.disk(check, p);
    probe.Says? && !Contains(probe.text, "does not exist")
  }

  /** It is there, and its size is not reported as zero. */
  predicate HasContent(gate: Gate, check: nat, p: string) {
    IsThere(gate, check, p) && !Contains(gate.disk(check, p).text, "size: 0 bytes")
  }

  lemma {:induction false} ClassMeans(gate: Gate, check: nat, p: string)
    ensures Classify(gate, check, p) == Absent <==> !IsThere(gate, check, p)
    ensures Classify(gate, check, p) == Confirmed <==> HasContent(gate, check, p)
  {
  }

  datatype Verdict =
    | NoCalls
    | NoneFound(candidates: seq<string>)
    | Partial(missing: seq<string>, empty: seq<string>, confirmed: seq<string>)
    | Passed

  function VerdictOf(gate: Gate, check: nat, candidates: seq<string>): Verdict {
    var missing := Having(gate, check, candidates, Absent);
    var empty := Having(gate, check, candidates, EmptyFile);
    if candidates == [] then NoCalls
    else if |missing| == |candidates| then NoneFound(candidates)
    else if missing != [] || empty != [] then Partial(missing, empty, Having(gate, check, candidates, Confirmed))
    else Passed
  }

  /** How the source prints a list. */
  function ListText(xs: seq<string>): string {
    "[" + Join(xs, " ") + "]"
  }

  function Join(xs: seq<string>, sep: string): string {
    if xs == [] then "" else if |xs| == 1 then xs[0] else xs[0] + sep + Join(xs[1..], sep)
  }

  function Tagged(verdict: Verdict, out: string): string {
    match verdict
    case NoCalls => FAILED_TAG + ": worker claimed file creation but made no file-write tool calls] " + out
    case NoneFound(candidates) =>
      FAILED_TAG + (": claimed file creation but none of " + ListText(candidates) + " found on disk] " + out)
    case Partial(missing, empty, confirmed) =>
      PARTIAL_TAG + (": missing=" + ListText(missing) + " empty=" + ListText(empty) + " confirmed=" +
        ListText(confirmed) + "] " + out)
    case Passed => out
  }

  function Subtract(all: seq<string>, remove: seq<string>): seq<string> {
    if all == [] then []
    else
      var front, last := Subtract(all[..|all| - 1], remove), all[|all| - 1];
      if last in remove then front else front + [last]
  }

  method SubtractSet(all: seq<string>, remove: seq<string>) returns (out: seq<string>)
    ensures out == Subtract(all, remove)
  {
    var skip := set r | r in remove;
    out := [];
    for i := 0 to |all|
      invariant out == Subtract(all[..i], remove)
    {
      assert all[..i + 1][..i] == all[..i];
      if all[i] !in skip {
        out := out + [all[i]];
      }
    }
    assert all[..|all|] == all;
  }

  lemma {:induction false} HavingFacts(gate: Gate, check: nat, paths: seq<string>, presence: Presence)
    ensures forall p :: p in Having(gate, check, paths, presence) <==>
              p in paths && Classify(gate, check, p) == presence
    ensures |Having(gate, check, paths, presence)| <= |paths|
    ensures |Having(gate, check, paths, presence)| == |paths| <==> forall p | p in paths ::
            Classify(gate, check, p) == presence
  {
    if paths != [] {
      var front, last := paths[..|paths| - 1], paths[|paths| - 1];
      HavingFacts(gate, check, front, presence);
      assert paths == front + [last];
    }
  }

  /** Taking the missing and the empty paths away leaves the confirmed ones. */
  lemma {:induction false} RestIsConfirmed(gate: Gate, check: nat, all: seq<string>, paths: seq<string>)
    requires forall p | p in paths :: p in all
    ensures Subtract(paths, Having(gate, check, all, Absent) + Having(gate, check, all, EmptyFile)) ==
            Having(gate, check, paths, Confirmed)
  {
    if paths != [] {
      HavingFacts(gate, check, all, Absent);
      HavingFacts(gate, check, all, EmptyFile);
      RestIsConfirmed(gate, check, all, paths[..|paths| - 1]);
    }
  }

  /** verifyFileCreation, at the given check of the disk. */
  method VerifyFileCreation(gate: Gate, check: nat, messages: seq<Message>, out: string) returns (tagged: string)
    ensures tagged == Tagged(VerdictOf(gate, check, WrittenPaths(gate, messages)), out)
  {
    var candidates := ExtractWrittenPaths(gate, messages);
    if |candidates| == 0 {
      return FAILED_TAG + ": worker claimed file creation but made no file-write tool calls] " + out;
    }
    var missing: seq<string>, empty: seq<string> := [], [];
    for i := 0 to |candidates|
      invariant missing == Having(gate, check, candidates[..i], Absent)
      invariant empty == Having(gate, check, candidates[..i], EmptyFile)
    {
      assert candidates[..i + 1][..i] == candidates[..i];
      var p := candidates[i];
      var probe := gate.disk(check, p);
      if probe.ProbeError? {
        missing := missing + [p];
        continue;
      }
      if Contains(probe.text, "does not exist") {
        missing := missing + [p];
      } else if Contains(probe.text, "size: 0 bytes") {
        empty := empty + [p];
      }
    }
    assert candidates[..|candidates|] == candidates;
    if |missing| == |candidates| {
      tagged := Tagged(NoneFound(candidates), out);
    } else if |missing| > 0 || |empty| > 0 {
      var confirmed := SubtractSet(candidates, missing + empty);
      RestIsConfirmed(gate, check, candidates, candidates);
      tagged := Tagged(Partial(missing, empty, confirmed), out);
    } else {
      tagged := out;
    }
  }

  // ---- What a text says about the disk ----

  /** The paths that pass a test, in order. */
  ghost function Keep(paths: seq<string>, test: string -> bool): seq<string> {
    if paths == [] then []
    else
      var front, last := Keep(paths[..|paths| - 1], test), paths[|paths| - 1];
      if test(last) then front + [last] else front
  }

  lemma {:induction false} HavingIs(gate: Gate, check: nat, paths: seq<string>, presence: Presence,
                                    test: string -> bool)
    requires forall p :: test(p) <==> Classify(gate, check, p) == presence
    ensures Having(gate, check, paths, presence) == Keep(paths, test)
  {
    if paths != [] {
      HavingIs(gate, check, paths[..|paths| - 1], presence, test);
    }
  }

  /** No path the conversation writes to is there at the given check. */
  ghost predicate NoneThere(gate: Gate, check: nat, messages: seq<Message>) {
    forall p | Targets(gate, messages, p) :: !IsThere(gate, check, p)
  }

  /** Every such path is there with content. */
  ghost predicate AllWritten(gate: Gate, check: nat, messages: seq<Message>) {
    forall p | Targets(gate, messages, p) :: HasContent(gate, check, p)
  }

  /** The note for a conversation some of whose paths are there: which are not, which are
      empty, and which are neither. */
  ghost function PartialNote(gate: Gate, check: nat, paths: seq<string>): string {
    "[VERIFICATION PARTIAL" +
    (": missing=" + ListText(Keep(paths, p => !IsThere(gate, check, p))) +
     " empty=" + ListText(Keep(paths, p => IsThere(gate, check, p) && !HasContent(gate, check, p))) +
     " confirmed=" + ListText(Keep(paths, p => HasContent(gate, check, p))) + "] ")
  }

  /** What each verdict says about the disk, for the paths the conversation targets. */
  lemma {:induction false} VerdictMeaning(gate: Gate, check: nat, messages: seq<Message>, verdict: Verdict)
    requires verdict == VerdictOf(gate, check, WrittenPaths(gate, messages))
    ensures verdict.NoCalls? || verdict.NoneFound? <==> NoneThere(gate, check, messages)
    ensures verdict.NoCalls? <==> forall p :: !Targets(gate, messages, p)
    ensures verdict.Passed? <==> AllWritten(gate, check, messages) && !NoneThere(gate, check, messages)
    ensures verdict.NoneFound? ==> verdict.candidates == WrittenPaths(gate, messages)
    ensures verdict.Partial? ==>
              var paths := WrittenPaths(gate, messages);
              && verdict.missing == Keep(paths, p => !IsThere(gate, check, p))
              && verdict.empty == Keep(paths, p => IsThere(gate, check, p) && !HasContent(gate, check, p))
              && verdict.confirmed == Keep(paths, p => HasContent(gate, check, p))
  {
    var candidates := WrittenPaths(gate, messages);
    WrittenPathsExact(gate, messages);
    VerdictCases(gate, check, candidates, verdict);
    HavingIs(gate, check, candidates, Absent, p => !IsThere(gate, check, p));
    HavingIs(gate, check, candidates, EmptyFile, p => IsThere(gate, check, p) && !HasContent(gate, check, p));
    HavingIs(gate, check, candidates, Confirmed, p => HasContent(gate, check, p));
  }

  lemma {:induction false} VerdictCases(gate: Gate, check: nat, candidates: seq<string>, verdict: Verdict)
    requires verdict == VerdictOf(gate, check, candidates)
    ensures verdict.NoCalls? <==> forall p :: p !in candidates
    ensures verdict.NoCalls? || verdict.NoneFound? <==> forall p | p in candidates :: !IsThere(gate, check, p)
    ensures verdict.Passed? <==>
            (forall p | p in candidates :: HasContent(gate, check, p)) &&
            (exists p | p in candidates :: IsThere(gate, check, p))
  {
    HavingFacts(gate, check, candidates, Absent);
    HavingFacts(gate, check, candidates, EmptyFile);
    if candidates != [] {
      assert candidates[0] in candidates;
    }
    if Having(gate, check, candidates, Absent) != [] {
      assert Having(gate, check, candidates, Absent)[0] in candidates;
    }
    if Having(gate, check, candidates, EmptyFile) != [] {
      assert Having(gate, check, candidates, EmptyFile)[0] in candidates;
    }
  }

  /** What the text of a check is, by what the exists calls for the written paths answered:
      unchanged exactly if there are such paths and all are there with content, with the partial
      note exactly if only some are, with the failure tag exactly if none is. */
  lemma {:induction false} TextMeaning(gate: Gate, check: nat, messages: seq<Message>, out: string, tagged: string)
    requires tagged == Tagged(VerdictOf(gate, check, WrittenPaths(gate, messages)), out)
    ensures var none, all := NoneThere(gate, check, messages), AllWritten(gate, check, messages);
            && (tagged == out <==> all && !none)
            && (none ==> HasPrefix(tagged, "[VERIFICATION FAILED"))
            && (!HasPrefix(out, "[VERIFICATION FAILED") ==> (HasPrefix(tagged, "[VERIFICATION FAILED") <==> none))
            && (!none && !all ==> tagged == PartialNote(gate, check, WrittenPaths(gate, messages)) + out)
            && (none && (exists p :: Targets(gate, messages, p)) ==>
                tagged == "[VERIFICATION FAILED" + (": claimed file creation but none of " +
                  ListText(WrittenPaths(gate, messages)) + " found on disk] " + out))
            && (none && !(exists p :: Targets(gate, messages, p)) ==>
                tagged == "[VERIFICATION FAILED" +
                  ": worker claimed file creation but made no file-write tool calls] " + out)
  {
    var verdict := VerdictOf(gate, check, WrittenPaths(gate, messages));
    VerdictMeaning(gate, check, messages, verdict);
    match verdict {
      case Partial(missing, empty, confirmed) =>
        PartialText(gate, check, WrittenPaths(gate, messages), missing, empty, confirmed, out, tagged);
      case _ =>
        assert verdict.Passed? || |tagged| > |out|;
    }
  }

  lemma {:induction false} PartialText(gate: Gate, check: nat, paths: seq<string>, missing: seq<string>,
                                       empty: seq<string>, confirmed: seq<string>, out: string, tagged: string)
    requires missing == Keep(paths, p => !IsThere(gate, check, p))
    requires empty == Keep(paths, p => IsThere(gate, check, p) && !HasContent(gate, check, p))
    requires confirmed == Keep(paths, p => HasContent(gate, check, p))
    requires tagged == Tagged(Partial(missing, empty, confirmed), out)
    ensures tagged == PartialNote(gate, check, paths) + out && |tagged| > |out|
    ensures !HasPrefix(tagged, "[VERIFICATION FAILED")
  {
    var note := ": missing=" + ListText(missing) + " empty=" + ListText(empty) + " confirmed=" + ListText(confirmed) +
      "] ";
    assert tagged == "[VERIFICATION PARTIAL" + (note + out);
    assert tagged[14] == 'P';
  }

  lemma {:induction false} PartialTagged(gate: Gate, check: nat, paths: seq<string>, out: string, tagged: string)
    requires tagged == PartialNote(gate, check, paths) + out
    ensures HasPrefix(tagged, "[VERIFICATION PARTIAL")
  {
    var note := PartialNote(gate, check, paths);
    assert note[..21] == "[VERIFICATION PARTIAL" && tagged[..21] == note[..21];
  }

  /** A text without the failure tag vouches for some path that the conversation writes to, one
      without any tag for all of them. */
  lemma {:induction false} UntaggedIsHonest(gate: Gate, check: nat, messages: seq<Message>, out: string, tagged: string)
    requires tagged == Tagged(VerdictOf(gate, check, WrittenPaths(gate, messages)), out)
    ensures !HasPrefix(tagged, "[VERIFICATION FAILED") ==>
              exists p :: Targets(gate, messages, p) && IsThere(gate, check, p)
    ensures tagged == out || !(HasPrefix(tagged, "[VERIFICATION FAILED") || HasPrefix(tagged, "[VERIFICATION PARTIAL"))
            ==> AllWritten(gate, check, messages)
  {
    TextMeaning(gate, check, messages, out, tagged);
    if !NoneThere(gate, check, messages) && !AllWritten(gate, check, messages) {
      PartialTagged(gate, check, WrittenPaths(gate, messages), out, tagged);
    }
  }

  // ---- The retries ----

  predicate Failed(tagged: string) {
    HasPrefix(tagged, FAILED_TAG)
  }

  /** The text is the verdict on the conversation against the disk at the given check. */
  ghost predicate Judged(gate: Gate, check: nat, messages: seq<Message>, out: string, tagged: string) {
    tagged == Tagged(VerdictOf(gate, check, WrittenPaths(gate, messages)), out)
  }

  /** Some path the conversation targets was found on disk at the given check. */
  ghost predicate FoundSome(gate: Gate, check: nat, messages: seq<Message>) {
    exists p :: Targets(gate, messages, p) && IsThere(gate, check, p)
  }

  method Check(gate: Gate, check: nat, messages: seq<Message>, out: string) returns (tagged: string)
    ensures Judged(gate, check, messages, out, tagged)
    ensures !Failed(tagged) ==> FoundSome(gate, check, messages)
  {
    tagged := VerifyFileCreation(gate, check, messages, out);
    UntaggedIsHonest(gate, check, messages, out, tagged);
  }

  /** One retry: what was known before it, its claims, and what the worker loop made of it. */
  datatype Try = Try(messages: seq<Message>, out: string, failure: string, key: string,
                     grown: seq<Message>, retryOut: string, ending: Ending)

  function ClaimKey(gate: Gate, out: string): string {
    Join(gate.claimed(out), ",")
  }

  /** Joining one more text puts the separator in front of it. */
  lemma {:induction false} JoinMore(xs: seq<string>, x: string, sep: string)
    requires xs != []
    ensures Join([x], sep) == x && Join(xs + [x], sep) == Join(xs, sep) + (sep + x)
  {
    if |xs| > 1 {
      JoinMore(xs[1..], x, sep);
      assert (xs + [x])[1..] == xs[1..] + [x];
    } else {
      assert (xs + [x])[1..] == [x];
    }
  }

  /** Printed lists: the texts in order, with a blank between them, in brackets. */
  lemma {:induction false} ListsPrint(xs: seq<string>, x: string)
    ensures ListText([]) == "[]" && ListText([x]) == "[" + x + "]"
    ensures xs != [] ==> ListText(xs + [x]) == ListText(xs)[..|ListText(xs)| - 1] + (" " + x + "]")
  {
    if xs != [] {
      JoinMore(xs, x, " ");
      var s := Join(xs, " ");
      assert ListText(xs)[..|ListText(xs)| - 1] == "[" + s;
      assert "[" + (s + (" " + x)) + "]" == ("[" + s) + (" " + x + "]");
    }
  }

  ghost predicate NoCommas(claims: seq<string>) {
    forall c | c in claims :: ',' !in c
  }

  /** What a joined list holds up to its first comma is its first text. */
  lemma {:induction false} FirstOf(a: string, b: string, s: string, t: string)
    requires ',' !in a && ',' !in b && a + s == b + t && (s == "" || s[0] == ',') && (t == "" || t[0] == ',')
    ensures a == b && s == t
  {
    assert (forall k | 0 <= k < |a| :: (a + s)[k] != ',') && (forall k | 0 <= k < |b| :: (b + t)[k] != ',');
    assert (s != "" ==> (a + s)[|a|] == ',') && (t != "" ==> (b + t)[|b|] == ',');
    assert |a| == |b|;
    assert a == (a + s)[..|a|] && b == (b + t)[..|b|];
    assert s == (a + s)[|a|..] && t == (b + t)[|b|..];
  }

  lemma {:induction false} JoinSplits(xs: seq<string>) returns (rest: string)
    requires xs != []
    ensures Join(xs, ",") == xs[0] + rest && (|xs| == 1 <==> rest == "")
    ensures |xs| > 1 ==> rest == "," + Join(xs[1..], ",")
  {
    rest := if |xs| == 1 then "" else "," + Join(xs[1..], ",");
    assert xs[0] + "" == xs[0];
  }

  /** Claims of names without commas count as tried before exactly if the same names were
      claimed in the same order. */
  lemma {:induction false} SameClaimsIff(xs: seq<string>, ys: seq<string>)
    requires xs != [] && ys != [] && NoCommas(xs) && NoCommas(ys)
    ensures Join(xs, ",") == Join(ys, ",") <==> xs == ys
  {
    if Join(xs, ",") == Join(ys, ",") {
      var s := JoinSplits(xs);
      var t := JoinSplits(ys);
      FirstOf(xs[0], ys[0], s, t);
      if |xs| > 1 {
        assert s[1..] == Join(xs[1..], ",") && t[1..] == Join(ys[1..], ",");
        SameClaimsIff(xs[1..], ys[1..]);
        assert xs == [xs[0]] + xs[1..] && ys == [ys[0]] + ys[1..];
      } else {
        assert xs == [xs[0]] && ys == [ys[0]];
      }
    }
  }

  /** With commas different claims can count as the same. */
  lemma {:induction false} CommaClaims(x: string, y: string)
    ensures Join([x + "," + y], ",") == Join([x, y], ",") && [x + "," + y] != [x, y]
  {
    assert [x, y][1..] == [y];
  }

  /** A retry is a run of the worker loop on the conversation with the failure and a sharper
      prompt appended. */
  ghost predicate IsRetry(gate: Gate, env: Env, task: Task, limits: Limits, t: Try) {
    && Failed(t.failure) && gate.claimed(t.out) != [] && t.key == ClaimKey(gate, t.out)
    && RunGives(env, task, limits, t.messages +
       [ToolMessage("", t.failure), UserMessage(gate.retryNudge(gate.claimed(t.out)))],
                t.grown, t.retryOut, t.ending)
  }

  /** Where a list of retries leads: each starts from what the one before it left, and leaves
      the verdict on its own conversation; one whose loop broke down leaves things as they were
      and is the last. */
  ghost predicate LeadsTo(gate: Gate, env: Env, task: Task, limits: Limits, messages: seq<Message>, out: string,
                          tries: seq<Try>, final: seq<Message>, finalOut: string, tagged: string)
    decreases |tries|
  {
    if tries == [] then final == messages && finalOut == out && Judged(gate, 0, messages, out, tagged)
    else
      var n := |tries| - 1;
      var t := tries[n];
      && LeadsTo(gate, env, task, limits, messages, out, tries[..n], t.messages, t.out, t.failure)
      && (n > 0 ==> tries[n - 1].ending != Errored) && IsRetry(gate, env, task, limits, t)
      && if t.ending == Errored then final == t.messages && finalOut == t.out && tagged == t.failure
         else final == t.grown && finalOut == t.retryOut && Judged(gate, n + 1, final, finalOut, tagged)
  }

  ghost predicate Differ(tries: seq<Try>, i: nat, j: nat)
    requires i < j < |tries|
  {
    tries[i].key != tries[j].key
  }

  /** No set of claims is tried twice. */
  ghost predicate TriedOnce(tries: seq<Try>) {
    forall i, j {:trigger Differ(tries, i, j)} | 0 <= i < j < |tries| :: Differ(tries, i, j)
  }

  ghost predicate KeyAt(tries: seq<Try>, i: nat, key: string)
    requires i < |tries|
  {
    tries[i].key == key
  }

  ghost predicate HasKey(tries: seq<Try>, key: string) {
    exists i {:trigger KeyAt(tries, i, key)} | 0 <= i < |tries| :: KeyAt(tries, i, key)
  }

  ghost predicate AreSeen(seen: set<string>, tries: seq<Try>) {
    forall key {:trigger HasKey(tries, key)} :: key in seen <==> HasKey(tries, key)
  }

  lemma {:induction false} TryAnother(seen: set<string>, tries: seq<Try>, t: Try)
    requires TriedOnce(tries) && AreSeen(seen, tries) && t.key !in seen
    ensures TriedOnce(tries + [t]) && AreSeen(seen + {t.key}, tries + [t])
  {
    var all := tries + [t];
    assert !HasKey(tries, t.key);
    forall i, j | 0 <= i < j < |all| ensures Differ(all, i, j) {
      if j < |tries| { assert Differ(tries, i, j); } else { assert !KeyAt(tries, i, t.key); }
    }
    forall key ensures key in seen + {t.key} <==> HasKey(all, key) {
      if HasKey(tries, key) {
        var i :| 0 <= i < |tries| && KeyAt(tries, i, key);
        assert KeyAt(all, i, key);
      }
      if HasKey(all, key) {
        var i :| 0 <= i < |all| && KeyAt(all, i, key);
        assert i < |tries| ==> KeyAt(tries, i, key);
      }
      assert KeyAt(all, |tries|, t.key);
    }
  }

  /** Why no further retry follows: two were made, the last one's loop broke down, the text
      claims no files, or only files that were tried already. */
  ghost predicate NoMore(gate: Gate, tries: seq<Try>, finalOut: string) {
    || |tries| == 2 || (tries != [] && tries[|tries| - 1].ending == Errored)
    || gate.claimed(finalOut) == [] || HasKey(tries, ClaimKey(gate, finalOut))
  }

  /** A retry only adds to the conversation. */
  lemma {:induction false} RetriesExtend(gate: Gate, env: Env, task: Task, limits: Limits, messages: seq<Message>,
                                         out: string,
                                         tries: seq<Try>, final: seq<Message>, finalOut: string, tagged: string)
    requires LeadsTo(gate, env, task, limits, messages, out, tries, final, finalOut, tagged)
    ensures messages <= final
    decreases |tries|
  {
    if tries != [] {
      var n := |tries| - 1;
      var t := tries[n];
      RetriesExtend(gate, env, task, limits, messages, out, tries[..n], t.messages, t.out, t.failure);
      if t.ending != Errored {
        var start := t.messages + [ToolMessage("", t.failure), UserMessage(gate.retryNudge(gate.claimed(t.out)))];
        var turns :| RunBy(env, task, limits, start, turns, t.grown, t.retryOut, t.ending);
        TurnsExtend(env, start, turns);
      }
    }
  }

  /** A text that comes back without the failure tag vouches for some path that the final
      conversation targets, at the last check of the disk; one without any tag for all of them. */
  lemma {:induction false} UntaggedAfterRetries(gate: Gate, env: Env, task: Task, limits: Limits,
                                                messages: seq<Message>, out: string,
                                                tries: seq<Try>, final: seq<Message>, finalOut: string, tagged: string)
    requires LeadsTo(gate, env, task, limits, messages, out, tries, final, finalOut, tagged)
    ensures !Failed(tagged) ==> FoundSome(gate, |tries|, final)
    ensures !Failed(tagged) && (tagged == finalOut || !HasPrefix(tagged, PARTIAL_TAG)) ==>
            AllWritten(gate, |tries|, final)
  {
    if !Failed(tagged) {
      UntaggedIsHonest(gate, |tries|, final, finalOut, tagged);
    }
  }

  lemma {:induction false} AddTry(gate: Gate, env: Env, task: Task, limits: Limits, messages: seq<Message>, out: string,
                                  tries: seq<Try>, t: Try, check: nat, tagged: string)
    requires LeadsTo(gate, env, task, limits, messages, out, tries, t.messages, t.out, t.failure) &&
             check == |tries| + 1
    requires IsRetry(gate, env, task, limits, t) && (tries != [] ==> tries[|tries| - 1].ending != Errored)
    requires if t.ending == Errored then tagged == t.failure else Judged(gate, check, t.grown, t.retryOut, tagged)
    ensures var over := t.ending == Errored;
            LeadsTo(gate, env, task, limits, messages, out, tries + [t], if over then t.messages
              else t.grown, if over then t.out else t.retryOut, tagged)
  {
    assert (tries + [t])[..|tries|] == tries;
  }

  /** Re-runs the worker loop with the failure and a sharper prompt appended, and checks again
      unless the loop broke down. */
  method Retry(gate: Gate, env: Env, task: Task, limits: Limits, ghost start: seq<Message>, ghost startOut: string,
               messages: seq<Message>, out: string, failure: string, claimed: seq<string>, check: nat,
                 ghost tries: seq<Try>)
    returns (ok: bool, grown: seq<Message>, retryOut: string, tagged: string, ghost t: Try)
    requires Failed(failure) && claimed == gate.claimed(out) && claimed != [] && check == |tries| + 1
    requires LeadsTo(gate, env, task, limits, start, startOut, tries, messages, out, failure)
    requires tries != [] ==> tries[|tries| - 1].ending != Errored
    ensures t == Try(messages, out, failure, ClaimKey(gate, out), t.grown, t.retryOut, t.ending) &&
            (ok <==> t.ending != Errored)
    ensures LeadsTo(gate, env, task, limits, start, startOut, tries + [t], grown, retryOut, tagged)
    ensures !ok ==> tagged == failure
  {
    var retryMessages := messages + [ToolMessage("", failure), UserMessage(gate.retryNudge(claimed))];
    var ending;
    grown, retryOut, ending := ReactLoop(env, task, limits, retryMessages);
    ok, t := ending != Errored, Try(messages, out, failure, ClaimKey(gate, out), grown, retryOut, ending);
    if ok {
      tagged := Check(gate, check, grown, retryOut);
    } else {
      grown, retryOut, tagged := messages, out, failure;
    }
    AddTry(gate, env, task, limits, start, startOut, tries, t, check, tagged);
  }

  /** The verdict after as many retries as help: at most two, none for claims already tried, and
      none left undone without a reason. */
  ghost predicate Verified(gate: Gate, env: Env, task: Task, limits: Limits, messages: seq<Message>, out: string,
                           tries: seq<Try>, final: seq<Message>, finalOut: string, tagged: string) {
    && LeadsTo(gate, env, task, limits, messages, out, tries, final, finalOut, tagged)
    && |tries| <= 2 && TriedOnce(tries) && (Failed(tagged) ==> NoMore(gate, tries, finalOut))
  }

  ghost predicate ClaimsNames(gate: Gate, tries: seq<Try>) {
    forall t | t in tries :: NoCommas(gate.claimed(t.out))
  }

  /** If no claimed name has a comma, no retry repeats the claims of another, and retries end
      early on a failed verdict only for a text that claims nothing or what was tried before. */
  lemma {:induction false} RetriesDiffer(gate: Gate, env: Env, task: Task, limits: Limits, messages: seq<Message>,
                                         out: string, tries: seq<Try>, final: seq<Message>, finalOut: string,
                                         tagged: string)
    requires Verified(gate, env, task, limits, messages, out, tries, final, finalOut, tagged)
    requires ClaimsNames(gate, tries) && NoCommas(gate.claimed(finalOut))
    ensures |tries| == 2 ==> gate.claimed(tries[0].out) != gate.claimed(tries[1].out)
    ensures |tries| < 2 && Failed(tagged) && (tries != [] ==> tries[0].ending != Errored) ==>
              gate.claimed(finalOut) == [] || (tries != [] && gate.claimed(tries[0].out) == gate.claimed(finalOut))
  {
    TriesAreRetries(gate, env, task, limits, messages, out, tries, final, finalOut, tagged);
    if |tries| == 2 {
      assert Differ(tries, 0, 1) && tries[0] in tries && tries[1] in tries;
      SameClaimsIff(gate.claimed(tries[0].out), gate.claimed(tries[1].out));
    } else if Failed(tagged) && HasKey(tries, ClaimKey(gate, finalOut)) && gate.claimed(finalOut) != [] {
      assert KeyAt(tries, 0, ClaimKey(gate, finalOut)) && tries[0] in tries;
      SameClaimsIff(gate.claimed(tries[0].out), gate.claimed(finalOut));
    }
  }

  lemma {:induction false} OneOfTries(tries: seq<Try>, n: nat, t: Try)
    requires |tries| == n + 1
    ensures t in tries <==> t in tries[..n] || t == tries[n]
  {
    assert tries == tries[..n] + [tries[n]];
  }

  lemma {:induction false} TriesAreRetries(gate: Gate, env: Env, task: Task, limits: Limits, messages: seq<Message>,
                                           out: string, tries: seq<Try>, final: seq<Message>, finalOut: string,
                                           tagged: string)
    requires LeadsTo(gate, env, task, limits, messages, out, tries, final, finalOut, tagged)
    ensures forall t | t in tries :: gate.claimed(t.out) != [] && t.key == Join(gate.claimed(t.out), ",")
    decreases |tries|
  {
    if tries != [] {
      var n := |tries| - 1;
      var t := tries[n];
      TriesAreRetries(gate, env, task, limits, messages, out, tries[..n], t.messages, t.out, t.failure);
      forall u | u in tries ensures gate.claimed(u.out) != [] && u.key == Join(gate.claimed(u.out), ",") {
        OneOfTries(tries, n, u);
      }
    }
  }

  /** The retries after a failed first check. */
  method RetryLoop(gate: Gate, env: Env, task: Task, limits: Limits, messages: seq<Message>, out: string,
                   failure: string)
    returns (tagged: string)
    requires Failed(failure) && Judged(gate, 0, messages, out, failure)
    ensures exists tries, final, finalOut ::
            Verified(gate, env, task, limits, messages, out, tries, final, finalOut, tagged)
  {
    tagged := failure;
    ghost var tries: seq<Try> := [];
    var currentMessages, currentOut := messages, out;
    var seenClaims: set<string> := {};
    for attempt := 0 to 2
      invariant |tries| == attempt && TriedOnce(tries) && AreSeen(seenClaims, tries)
      invariant tries != [] ==> tries[|tries| - 1].ending != Errored
      invariant Failed(tagged) && LeadsTo(gate, env, task, limits, messages, out, tries, currentMessages, currentOut,
                tagged)
    {
      var claimed := gate.claimed(currentOut);
      var claimKey := Join(claimed, ",");
      if |claimed| == 0 || claimKey in seenClaims {
        assert Verified(gate, env, task, limits, messages, out, tries, currentMessages, currentOut, tagged);
        return;
      }
      var ok; ghost var t;
      ok, currentMessages, currentOut, tagged, t :=
        Retry(gate, env, task, limits, messages, out, currentMessages, currentOut, tagged, claimed, attempt + 1, tries);
      TryAnother(seenClaims, tries, t);
      tries := tries + [t];
      seenClaims := seenClaims + {claimKey};
      if !ok || !Failed(tagged) {
        assert Verified(gate, env, task, limits, messages, out, tries, currentMessages, currentOut, tagged);
        return;
      }
    }
    assert Verified(gate, env, task, limits, messages, out, tries, currentMessages, currentOut, tagged);
  }

  /** verifyArtifacts: a step that creates no files keeps its text; for any other, retries
      until the verdict is no failure or none helps. */
  method VerifyArtifacts(gate: Gate, env: Env, task: Task, limits: Limits, messages: seq<Message>, out: string)
    returns (tagged: string)
    ensures !task.createsFiles ==> tagged == out
    ensures task.createsFiles ==>
              exists tries, final, finalOut :: Verified(gate, env, task, limits, messages, out, tries, final, finalOut,
                tagged)
  {
    tagged := out;
    if !task.createsFiles {
      return;
    }
    tagged := Check(gate, 0, messages, out);
    if Failed(tagged) {
      tagged := RetryLoop(gate, env, task, limits, messages, out, tagged);
    } else {
      assert Verified(gate, env, task, limits, messages, out, [], messages, out, tagged);
    }
  }

  // ---- Build honesty ----

  const NON_ZERO_EXIT := "[exit_status: non-zero"
  const BUILD_FAILED := "[VERIFICATION FAILED: a build/test command exited non-zero] "

  method TagBuildFailure(isVerifyOrQa: bool, messages: seq<Message>, out: string) returns (tagged: string)
    ensures isVerifyOrQa && (Contains(out, NON_ZERO_EXIT) || exists i | 0 <= i < |messages| ::
            Contains(messages[i].content, NON_ZERO_EXIT))
            ==> Failed(tagged)
    ensures tagged == out || (isVerifyOrQa && tagged == BUILD_FAILED + out)
    ensures !Failed(out) && Failed(tagged) ==>
              Contains(out, NON_ZERO_EXIT) || exists i | 0 <= i < |messages| ::
                Contains(messages[i].content, NON_ZERO_EXIT)
  {
    tagged := out;
    if !isVerifyOrQa {
      return;
    }
    assert Failed(BUILD_FAILED + out);
    if Contains(out, NON_ZERO_EXIT) {
      return BUILD_FAILED + out;
    }
    for i := 0 to |messages|
      invariant forall k | 0 <= k < i :: !Contains(messages[k].content, NON_ZERO_EXIT)
    {
      if Contains(messages[i].content, NON_ZERO_EXIT) {
        return BUILD_FAILED + out;
      }
    }
  }
}
