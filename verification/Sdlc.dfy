/** The plan rewriting that gives a code plan its SETUP, VERIFY, QA and SERVE steps
    (internal/agent/orchestrated.go, planTask and ensureSDLCSteps). */
module Sdlc {
  import opened Base
  import opened Plan
  import opened Dispatcher

  const SETUP_KEYWORDS := ["setup", "install", "npm install", "go mod", "pip install", "yarn", "dependencies"]
  const VERIFY_KEYWORDS := ["verify", "build", "test", "lint", "npm run build", "go test", "go build", "compile"]
  const QA_KEYWORDS := ["qa:", "independently", "independent review"]
  const SERVE_KEYWORDS :=
    ["working url", "give me the url", "give me a url", "preview", "see it", "to see it", "localhost", "open it",
      "live demo", "run it"]

  const SETUP_ID := -1
  const SETUP_REST := ": create the project manifest (package.json/go.mod/requirements.txt) and install " +
    "dependencies (npm install / go mod download / pip install)."
  const VERIFY_REST := ": run the project build/tests (npm run build / go build ./... / go test ./...) and " +
    "report pass/fail with the real output."
  const QA_REST := " independently re-run the build/tests and inspect the generated code for bugs. Report PASS " +
    "or FAIL with specific findings (file:line)."
  const SERVE_HEAD := "SERVE: start a background static file server in the project dir (process tool: 'cd " +
    "projects/<slug> && python3 -m http.server 8000') and report the URL http://"
  const SETUP_TEXT := "SETUP" + SETUP_REST
  const VERIFY_TEXT := "VERIFY" + VERIFY_REST
  const QA_TEXT := "QA:" + QA_REST
  const SERVE_TEXT := SERVE_HEAD + "localhost" + ":8000."

  /** strings.ToLower on the ASCII letters, the only ones the keywords hold. */
  function LowerChar(c: char): char {
    if 'A' <= c <= 'Z' then (c as int + 32) as char else c
  }

  function ToLower(s: string): string {
    seq(|s|, i requires 0 <= i < |s| => LowerChar(s[i]))
  }

  predicate MatchesAny(text: string, keywords: seq<string>) {
    exists k | 0 <= k < |keywords| :: Contains(ToLower(text), keywords[k])
  }

  predicate StepMatches(steps: seq<Step>, i: nat, keywords: seq<string>)
    requires i < |steps|
  {
    MatchesAny(steps[i].description, keywords)
  }

  predicate AnyStepMatches(steps: seq<Step>, keywords: seq<string>) {
    exists i {:trigger StepMatches(steps, i, keywords)} | 0 <= i < |steps| :: StepMatches(steps, i, keywords)
  }

  predicate IsServeTask(task: string) {
    MatchesAny(task, SERVE_KEYWORDS)
  }

  function AppendUnique(xs: seq<int>, v: int): (r: seq<int>)
    ensures forall x :: x in r <==> x in xs || x == v
  {
    if v in xs then xs else xs + [v]
  }

  function UniqueIds(steps: seq<Step>): (ids: seq<int>)
    ensures forall x :: x in ids <==> x in Ids(steps)
  {
    if steps == [] then [] else AppendUnique(UniqueIds(steps[..|steps| - 1]), steps[|steps| - 1].id)
  }

  function MaxId(steps: seq<Step>): (m: int)
    ensures m >= 0 && forall s | s in steps :: s.id <= m
  {
    if steps == [] then 0
    else
      var m := MaxId(steps[..|steps| - 1]);
      if steps[|steps| - 1].id > m then steps[|steps| - 1].id else m
  }

  function NextStepId(steps: seq<Step>): int {
    MaxId(steps) + 1
  }

  function SetupStep(): Step {
    Step(SETUP_ID, SETUP_TEXT, "terminal", [])
  }

  function AfterSetup(s: Step): Step {
    s.(dependsOn := AppendUnique(s.dependsOn, SETUP_ID))
  }

  /** Puts a SETUP step first and makes every other step wait for it. */
  function WithSetup(steps: seq<Step>): seq<Step> {
    if AnyStepMatches(steps, SETUP_KEYWORDS) then steps
    else [SetupStep()] + seq(|steps|, i requires 0 <= i < |steps| => AfterSetup(steps[i]))
  }

  function TailStep(steps: seq<Step>, text: string): Step {
    Step(NextStepId(steps), text, "terminal", UniqueIds(steps))
  }

  /** A step appended to the plan unless some step already matches its keywords. */
  datatype Stage = Stage(keywords: seq<string>, text: string)

  function WithTail(steps: seq<Step>, stage: Stage): seq<Step> {
    if AnyStepMatches(steps, stage.keywords) then steps else steps + [TailStep(steps, stage.text)]
  }

  function WithTails(steps: seq<Step>, stages: seq<Stage>): seq<Step> {
    if stages == [] then steps
    else WithTail(WithTails(steps, stages[..|stages| - 1]), stages[|stages| - 1])
  }

  const VERIFY := Stage(VERIFY_KEYWORDS, VERIFY_TEXT)
  const QA := Stage(QA_KEYWORDS, QA_TEXT)
  const SERVE := Stage(SERVE_KEYWORDS, SERVE_TEXT)

  /** VERIFY, then QA, then SERVE for tasks that ask to see the result. */
  function Stages(task: string): seq<Stage> {
    if IsServeTask(task) then [VERIFY, QA, SERVE] else [VERIFY, QA]
  }

  predicate IsCodePlan(creates: string -> bool, steps: seq<Step>) {
    exists i | 0 <= i < |steps| :: creates(steps[i].description)
  }

  /** The rewritten plan. creates classifies descriptions as file creation. */
  function Rewritten(creates: string -> bool, task: string, steps: seq<Step>): seq<Step> {
    if IsCodePlan(creates, steps) then WithTails(WithSetup(steps), Stages(task)) else steps
  }

  // ---- Methods ----

  method FindNextStepId(steps: seq<Step>) returns (id: int)
    ensures id == NextStepId(steps)
  {
    var max := 0;
    for i := 0 to |steps|
      invariant max == MaxId(steps[..i])
    {
      assert steps[..i + 1][..i] == steps[..i];
      if steps[i].id > max {
        max := steps[i].id;
      }
    }
    assert steps[..|steps|] == steps;
    return max + 1;
  }

  method AddTail(steps: seq<Step>, stage: Stage) returns (out: seq<Step>)
    ensures out == WithTail(steps, stage)
  {
    out := steps;
    if !AnyStepMatches(steps, stage.keywords) {
      var allIds: seq<int> := [];
      for i := 0 to |steps|
        invariant allIds == UniqueIds(steps[..i])
      {
        assert steps[..i + 1][..i] == steps[..i];
        allIds := AppendUnique(allIds, steps[i].id);
      }
      assert steps[..|steps|] == steps;
      var id := FindNextStepId(steps);
      out := steps + [Step(id, stage.text, "terminal", allIds)];
    }
  }

  /** Injects SETUP: every step of the caller's slice gets the dependency in place. */
  method InjectSetup(steps: array<Step>) returns (out: seq<Step>)
    requires !AnyStepMatches(steps[..], SETUP_KEYWORDS)
    modifies steps
    ensures out == WithSetup(old(steps[..])) && steps[..] == out[1..]
  {
    for i := 0 to steps.Length
      invariant forall k | 0 <= k < i :: steps[k] == AfterSetup(old(steps[k]))
      invariant forall k | i <= k < steps.Length :: steps[k] == old(steps[k])
    {
      steps[i] := steps[i].(dependsOn := AppendUnique(steps[i].dependsOn, SETUP_ID));
    }
    out := [SetupStep()] + steps[..];
  }

  /** ensureSDLCSteps: extends the dependencies of the caller's steps in place when it
      injects SETUP, and returns the rewritten plan. */
  method EnsureSdlcSteps(creates: string -> bool, task: string, steps: array<Step>) returns (out: seq<Step>)
    modifies steps
    ensures out == Rewritten(creates, task, old(steps[..]))
    ensures steps[..] == if IsCodePlan(creates, old(steps[..])) && !AnyStepMatches(old(steps[..]), SETUP_KEYWORDS)
                         then WithSetup(old(steps[..]))[1..] else old(steps[..])
  {
    out := steps[..];
    if IsCodePlan(creates, out) {
      if !AnyStepMatches(out, SETUP_KEYWORDS) {
        out := InjectSetup(steps);
      }
      TwoStages(out, VERIFY, QA, SERVE);
      out := AddTail(out, VERIFY);
      out := AddTail(out, QA);
      if IsServeTask(task) {
        out := AddTail(out, SERVE);
      }
    }
  }

  lemma {:induction false} OneStage(steps: seq<Step>, front: seq<Stage>, last: Stage)
    ensures WithTails(steps, front + [last]) == WithTail(WithTails(steps, front), last)
  {
    assert (front + [last])[..|front|] == front;
  }

  lemma {:induction false} TwoStages(steps: seq<Step>, a: Stage, b: Stage, c: Stage)
    ensures WithTails(steps, [a, b]) == WithTail(WithTail(steps, a), b)
    ensures WithTails(steps, [a, b, c]) == WithTail(WithTail(WithTail(steps, a), b), c)
  {
    assert [] + [a] == [a] && [a] + [b] == [a, b] && [a, b] + [c] == [a, b, c];
    OneStage(steps, [], a);
    OneStage(steps, [a], b);
    OneStage(steps, [a, b], c);
  }

  // ---- The rewriting keeps plans runnable ----

  /** Keeping the first n steps of an ordered plan keeps it ordered. */
  lemma {:induction false} TruncationOrdered(steps: seq<Step>, n: nat)
    requires Topological(steps) && n <= |steps|
    ensures Topological(steps[..n])
  {
    forall i | 0 <= i < n ensures DepsBefore(steps[..n], i) {
      assert steps[..n][..i] == steps[..i];
      assert DepsBefore(steps, i);
    }
  }

  lemma {:induction false} SetupDistinct(steps: seq<Step>)
    requires !AnyStepMatches(steps, SETUP_KEYWORDS)
    ensures DistinctIds(WithSetup(steps)) <==> DistinctIds(steps) && SETUP_ID !in Ids(steps)
    ensures Ids(WithSetup(steps)) == Ids(steps) + {SETUP_ID}
  {
    var rest := seq(|steps|, i requires 0 <= i < |steps| => AfterSetup(steps[i]));
    DistinctCons(SetupStep(), rest);
    forall x ensures x in Ids(rest) <==> x in Ids(steps) {
      if x in Ids(steps) {
        var i :| 0 <= i < |steps| && steps[i].id == x;
        assert rest[i].id == x;
      }
      if x in Ids(rest) {
        var i :| 0 <= i < |rest| && rest[i].id == x;
        assert steps[i] in steps;
      }
    }
    assert Ids(rest) == Ids(steps);
    assert forall i | 0 <= i < |steps| :: rest[i].id == steps[i].id;
    assert DistinctIds(rest) <==> DistinctIds(steps);
    assert Ids(WithSetup(steps)) == {SETUP_ID} + Ids(rest);
  }

  lemma {:induction false} TailDistinct(steps: seq<Step>, stage: Stage)
    ensures DistinctIds(WithTail(steps, stage)) <==> DistinctIds(steps)
  {
    var out := WithTail(steps, stage);
    if !AnyStepMatches(steps, stage.keywords) {
      assert forall i | 0 <= i < |steps| :: out[i] == steps[i] && steps[i] in steps;
      if DistinctIds(out) {
        forall i, j | 0 <= i < j < |steps| ensures steps[i].id != steps[j].id {
          assert out[i].id != out[j].id;
        }
      }
    }
  }

  lemma {:induction false} TailsDistinct(steps: seq<Step>, stages: seq<Stage>)
    ensures DistinctIds(WithTails(steps, stages)) <==> DistinctIds(steps)
  {
    if stages != [] {
      var front := stages[..|stages| - 1];
      TailsDistinct(steps, front);
      TailDistinct(WithTails(steps, front), stages[|stages| - 1]);
    }
  }

  /** IDs stay distinct exactly if they were, and SETUP's ID, when injected, was free. */
  lemma {:induction false} RewrittenDistinctIff(creates: string -> bool, task: string, steps: seq<Step>)
    ensures DistinctIds(Rewritten(creates, task, steps)) <==>
            DistinctIds(steps) &&
            (IsCodePlan(creates, steps) && !AnyStepMatches(steps, SETUP_KEYWORDS) ==> SETUP_ID !in Ids(steps))
  {
    if IsCodePlan(creates, steps) {
      if !AnyStepMatches(steps, SETUP_KEYWORDS) {
        SetupDistinct(steps);
      }
      TailsDistinct(WithSetup(steps), Stages(task));
    }
  }

  lemma {:induction false} SetupOrdered(steps: seq<Step>)
    requires Topological(steps) && SETUP_ID !in Ids(steps)
    ensures Topological(WithSetup(steps))
  {
    var out := WithSetup(steps);
    if !AnyStepMatches(steps, SETUP_KEYWORDS) {
      SetupDistinct(steps);
      forall i | 0 <= i < |out| ensures DepsBefore(out, i) {
        if i > 0 {
          assert DepsBefore(steps, i - 1);
          forall d | d in out[i].dependsOn ensures d in Ids(out[..i]) {
            if d == SETUP_ID {
              assert out[..i][0] == SetupStep();
            } else {
              var t :| t in steps[..i - 1] && t.id == d;
              var k :| 0 <= k < i - 1 && steps[k] == t;
              assert out[..i][k + 1].id == d;
            }
          }
        }
      }
    }
  }

  lemma {:induction false} TailOrdered(steps: seq<Step>, stage: Stage)
    requires Topological(steps)
    ensures Topological(WithTail(steps, stage))
  {
    var out := WithTail(steps, stage);
    if !AnyStepMatches(steps, stage.keywords) {
      TailDistinct(steps, stage);
      forall i | 0 <= i < |out| ensures DepsBefore(out, i) {
        if i < |steps| {
          assert out[..i] == steps[..i];
          assert DepsBefore(steps, i);
        } else {
          assert out[..i] == steps;
        }
      }
    }
  }

  lemma {:induction false} TailsOrdered(steps: seq<Step>, stages: seq<Stage>)
    requires Topological(steps)
    ensures Topological(WithTails(steps, stages))
  {
    if stages != [] {
      var front := stages[..|stages| - 1];
      TailsOrdered(steps, front);
      TailOrdered(WithTails(steps, front), stages[|stages| - 1]);
    }
  }

  /** A planner's ordered plan stays ordered. */
  lemma {:induction false} RewrittenOrdered(creates: string -> bool, task: string, steps: seq<Step>)
    requires Topological(steps) && SETUP_ID !in Ids(steps)
    ensures Topological(Rewritten(creates, task, steps))
  {
    SetupOrdered(steps);
    TailsOrdered(WithSetup(steps), Stages(task));
  }

  /** Following dependencies from a listed step leads to ever earlier list entries. */
  lemma {:induction false} WalkGoesBack(steps: seq<Step>, p: seq<int>, k: nat, i: nat) returns (j: nat)
    requires Topological(steps) && IsWalk(steps, p) && k < |p|
    requires i < |steps| && steps[i].id == p[0]
    ensures j < |steps| && steps[j].id == p[k] && j + k <= i
  {
    if k == 0 {
      j := i;
    } else {
      var m := WalkGoesBack(steps, p, k - 1, i);
      assert Edge(steps, p[k - 1], p[k - 1 + 1]);
      var s :| s in steps && s.id == p[k - 1] && p[k] in s.dependsOn;
      DistinctById(steps, s, steps[m]);
      assert DepsBefore(steps, m);
      j :| 0 <= j < m && steps[..m][j].id == p[k];
    }
  }

  /** An ordered plan has nothing for the dispatcher to be stuck on. */
  lemma {:induction false} OrderedNotStuck(steps: seq<Step>)
    requires Topological(steps)
    ensures !Missing(steps) && !Cyclic(steps)
  {
    forall s, d | s in steps && d in s.dependsOn ensures d in Ids(steps) {
      var i :| 0 <= i < |steps| && steps[i] == s;
      assert DepsBefore(steps, i);
    }
    if Cyclic(steps) {
      var p :| IsCycle(steps, p);
      assert Edge(steps, p[0], p[0 + 1]);
      var s :| s in steps && s.id == p[0];
      var i: nat :| i < |steps| && steps[i] == s;
      var j := WalkGoesBack(steps, p, |p| - 1, i);
    }
  }

  /** planTask: an ordered planner answer with distinct IDs, truncated and rewritten, is a
      plan the dispatcher never reports stuck. */
  lemma {:induction false} PlannedNeverStuck(env: Env, creates: string -> bool, task: string, steps: seq<Step>,
                                             maxSteps: nat, plan: seq<Step>)
    requires Topological(steps) && SETUP_ID !in Ids(steps)
    requires plan == Rewritten(creates, task, if |steps| > maxSteps then steps[..maxSteps] else steps)
    ensures DistinctIds(plan) && SeqDispatch(env, plan, map[], {}, 0).verdict != Stuck
  {
    var kept := if |steps| > maxSteps then steps[..maxSteps] else steps;
    if |steps| > maxSteps {
      TruncationOrdered(steps, maxSteps);
    }
    assert forall s | s in kept :: s in steps;
    RewrittenOrdered(creates, task, kept);
    OrderedNotStuck(plan);
    DispatchCorrect(env, plan);
  }

  // ---- Injected steps run alone ----

  /** Step k waits for everything listed before it, and everything listed after waits for it. */
  ghost predicate IsGate(steps: seq<Step>, k: int) {
    && 0 <= k < |steps|
    && (forall i | 0 <= i < k :: steps[i].id in steps[k].dependsOn)
    && (forall i | k < i < |steps| :: steps[k].id in steps[i].dependsOn)
  }

  /** Some round consists of step k only, and everything listed before has finished by then. */
  ghost predicate RunsAlone(steps: seq<Step>, k: int)
    requires 0 <= k < |steps|
  {
    exists r :: StartsIn(steps, steps[k], r) && (forall s :: StartsIn(steps, s, r) ==> s == steps[k])
      && (forall i | 0 <= i < k :: steps[i].id in DoneAfter(steps, r))
  }

  lemma {:induction false} FinishesAfterDeps(steps: seq<Step>, s: Step, r: nat)
    requires s in steps && AllDepsDone(s, DoneAfter(steps, r))
    ensures s.id in DoneAfter(steps, r + 1)
  {
    if s.id !in DoneAfter(steps, r) {
      assert s.id in Started(steps, DoneAfter(steps, r));
    }
  }

  lemma {:induction false} DepsCovered(steps: seq<Step>, n: nat, done: set<int>)
    requires n < |steps| && DepsBefore(steps, n)
    requires forall i | 0 <= i < n :: steps[i].id in done
    ensures AllDepsDone(steps[n], done)
  {
    forall d | d in steps[n].dependsOn ensures d in done {
      var t :| t in steps[..n] && t.id == d;
      var i :| 0 <= i < n && steps[i] == t;
    }
  }

  /** The first n steps have finished after n rounds. */
  ghost predicate FirstFinish(steps: seq<Step>, n: nat)
    requires n <= |steps|
  {
    forall i | 0 <= i < n :: steps[i].id in DoneAfter(steps, n)
  }

  lemma {:induction false} OrderedFinishes(steps: seq<Step>, n: nat)
    requires Topological(steps) && n <= |steps|
    ensures FirstFinish(steps, n)
  {
    if n > 0 {
      OrderedFinishes(steps, n - 1);
      assert DepsBefore(steps, n - 1);
      OneMoreFinishes(steps, n - 1);
    }
  }

  lemma {:induction false} OneMoreFinishes(steps: seq<Step>, n: nat)
    requires n < |steps| && DepsBefore(steps, n) && FirstFinish(steps, n)
    ensures FirstFinish(steps, n + 1)
  {
    DepsCovered(steps, n, DoneAfter(steps, n));
    FinishesAfterDeps(steps, steps[n], n);
    DoneMonotone(steps, n, n + 1);
  }

  lemma {:induction false} GateRunsAlone(steps: seq<Step>, k: nat)
    requires Topological(steps) && IsGate(steps, k)
    ensures RunsAlone(steps, k)
  {
    OrderedFinishes(steps, |steps|);
    assert steps[k] in steps;
    var r := StartRoundOf(steps, steps[k], |steps|);
    forall s | StartsIn(steps, s, r) ensures s == steps[k] {
      var i :| 0 <= i < |steps| && steps[i] == s;
    }
  }

  lemma {:induction false} TailKeepsGate(steps: seq<Step>, stage: Stage, k: nat)
    requires IsGate(steps, k)
    ensures IsGate(WithTail(steps, stage), k) && WithTail(steps, stage)[k] == steps[k]
  {
    assert steps[k] in steps;
  }

  lemma {:induction false} NewTailIsGate(steps: seq<Step>, stage: Stage)
    requires !AnyStepMatches(steps, stage.keywords)
    ensures IsGate(WithTail(steps, stage), |steps|) && WithTail(steps, stage)[|steps|].description == stage.text
  {
    assert forall i | 0 <= i < |steps| :: steps[i] in steps;
  }

  lemma {:induction false} TailsKeepGate(steps: seq<Step>, stages: seq<Stage>, k: nat)
    requires IsGate(steps, k)
    ensures IsGate(WithTails(steps, stages), k) && WithTails(steps, stages)[k] == steps[k]
  {
    if stages != [] {
      var n := |stages| - 1;
      TailsKeepGate(steps, stages[..n], k);
      TailKeepsGate(WithTails(steps, stages[..n]), stages[n], k);
    }
  }

  /** Stage j finds no matching step and appends its own. */
  predicate Injects(steps: seq<Step>, stages: seq<Stage>, j: int)
    requires 0 <= j < |stages|
  {
    !AnyStepMatches(WithTails(steps, stages[..j]), stages[j].keywords)
  }

  /** Where stage j's step stands. */
  function Position(steps: seq<Step>, stages: seq<Stage>, j: int): nat
    requires 0 <= j < |stages|
  {
    |WithTails(steps, stages[..j])|
  }

  lemma {:induction false} TailsInTwo(steps: seq<Step>, a: seq<Stage>, b: seq<Stage>, ab: seq<Stage>)
    requires ab == a + b
    ensures WithTails(steps, ab) == WithTails(WithTails(steps, a), b)
    decreases |b|
  {
    if b == [] {
      assert ab == a;
    } else {
      var front, last := b[..|b| - 1], b[|b| - 1];
      assert b == front + [last] && ab == (a + front) + [last];
      OneStage(steps, a + front, last);
      OneStage(WithTails(steps, a), front, last);
      TailsInTwo(steps, a, front, a + front);
    }
  }

  lemma {:induction false} InjectedTailIsGate(steps: seq<Step>, stages: seq<Stage>, j: nat)
    requires j < |stages| && Injects(steps, stages, j)
    ensures var out, k := WithTails(steps, stages), Position(steps, stages, j);
            IsGate(out, k) && out[k].description == stages[j].text
  {
    var before, here, later := stages[..j], stages[..j + 1], stages[j + 1..];
    assert here[..j] == before && here + later == stages;
    TailsInTwo(steps, here, later, stages);
    var mid := WithTails(steps, before);
    NewTailIsGate(mid, stages[j]);
    TailsKeepGate(WithTail(mid, stages[j]), later, |mid|);
  }

  lemma {:induction false} SetupIsGate(steps: seq<Step>)
    requires !AnyStepMatches(steps, SETUP_KEYWORDS)
    ensures IsGate(WithSetup(steps), 0)
  {
  }

  /** An injected SETUP is the whole first round. */
  lemma {:induction false} SetupRunsFirst(creates: string -> bool, task: string, steps: seq<Step>)
    requires IsCodePlan(creates, steps) && !AnyStepMatches(steps, SETUP_KEYWORDS)
    ensures forall s :: StartsIn(Rewritten(creates, task, steps), s, 0) <==> s == SetupStep()
  {
    var out := Rewritten(creates, task, steps);
    SetupIsGate(steps);
    TailsKeepGate(WithSetup(steps), Stages(task), 0);
    assert out[0] == SetupStep();
    forall s ensures StartsIn(out, s, 0) <==> s == SetupStep() {
      if s in out {
        var i :| 0 <= i < |out| && out[i] == s;
      }
    }
  }

  /** Every injected VERIFY, QA or SERVE step has a round of its own, after everything
      listed before it has finished. */
  lemma {:induction false} TailsRunAlone(creates: string -> bool, task: string, steps: seq<Step>, j: nat)
    requires Topological(steps) && SETUP_ID !in Ids(steps) && IsCodePlan(creates, steps)
    requires j < |Stages(task)| && Injects(WithSetup(steps), Stages(task), j)
    ensures var out, k := Rewritten(creates, task, steps), Position(WithSetup(steps), Stages(task), j);
            k < |out| && out[k].description == Stages(task)[j].text && RunsAlone(out, k)
  {
    InjectedTailIsGate(WithSetup(steps), Stages(task), j);
    RewrittenOrdered(creates, task, steps);
    GateRunsAlone(Rewritten(creates, task, steps), Position(WithSetup(steps), Stages(task), j));
  }

  // ---- Size, originals, and a second application ----

  lemma {:induction false} TailsExtend(steps: seq<Step>, stages: seq<Stage>)
    ensures steps <= WithTails(steps, stages) && |WithTails(steps, stages)| <= |steps| + |stages|
  {
    if stages != [] {
      TailsExtend(steps, stages[..|stages| - 1]);
    }
  }

  /** The planner's steps stand at off, changed at most by the dependency on SETUP. */
  ghost predicate HoldsPlan(out: seq<Step>, steps: seq<Step>, off: nat) {
    && |steps| + off <= |out|
    && forall i | 0 <= i < |steps| :: out[off + i] == if off == 1 then AfterSetup(steps[i]) else steps[i]
  }

  lemma {:induction false} SetupHoldsPlan(steps: seq<Step>)
    ensures var off := if AnyStepMatches(steps, SETUP_KEYWORDS) then 0 else 1;
            |WithSetup(steps)| == |steps| + off && HoldsPlan(WithSetup(steps), steps, off)
  {
  }

  lemma {:induction false} TailsHoldPlan(first: seq<Step>, stages: seq<Stage>, steps: seq<Step>, off: nat)
    requires HoldsPlan(first, steps, off)
    ensures HoldsPlan(WithTails(first, stages), steps, off) && |WithTails(first, stages)| <= |first| + |stages|
  {
    TailsExtend(first, stages);
  }

  /** At most four steps are added, and the planner's steps stay in order. */
  lemma {:induction false} OriginalsKept(creates: string -> bool, task: string, steps: seq<Step>, off: nat)
    requires off == if IsCodePlan(creates, steps) && !AnyStepMatches(steps, SETUP_KEYWORDS) then 1 else 0
    ensures HoldsPlan(Rewritten(creates, task, steps), steps, off) && |Rewritten(creates, task, steps)| <= |steps| + 4
  {
    SetupHoldsPlan(steps);
    TailsHoldPlan(WithSetup(steps), Stages(task), steps, if AnyStepMatches(steps, SETUP_KEYWORDS) then 0 else 1);
  }

  lemma {:induction false} MatchesPart(a: string, b: string, c: string, keywords: seq<string>, k: nat)
    requires k < |keywords| && ToLower(b) == keywords[k]
    ensures MatchesAny(a + b + c, keywords)
  {
    var low := ToLower(a + b + c);
    assert low[|a|..|a| + |b|] == ToLower(b);
    assert OccursAt(low, keywords[k], |a|);
  }

  lemma {:induction false} MatchesStart(b: string, c: string, keywords: seq<string>, k: nat)
    requires k < |keywords| && ToLower(b) == keywords[k]
    ensures MatchesAny(b + c, keywords)
  {
    MatchesPart([], b, c, keywords, k);
    assert [] + b == b;
  }

  /** The backstop recognises its own steps. */
  lemma {:induction false} OwnSetupMatches()
    ensures MatchesAny(SETUP_TEXT, SETUP_KEYWORDS)
  {
    MatchesStart("SETUP", SETUP_REST, SETUP_KEYWORDS, 0);
  }

  lemma {:induction false} OwnVerifyMatches()
    ensures MatchesAny(VERIFY.text, VERIFY.keywords)
  {
    MatchesStart("VERIFY", VERIFY_REST, VERIFY_KEYWORDS, 0);
  }

  lemma {:induction false} OwnQaMatches()
    ensures MatchesAny(QA.text, QA.keywords)
  {
    MatchesStart("QA:", QA_REST, QA_KEYWORDS, 0);
  }

  lemma {:induction false} OwnServeMatches()
    ensures MatchesAny(SERVE.text, SERVE.keywords)
  {
    MatchesPart(SERVE_HEAD, "localhost", ":8000.", SERVE_KEYWORDS, 6);
  }

  lemma {:induction false} MatchStays(steps: seq<Step>, more: seq<Step>, keywords: seq<string>)
    requires AnyStepMatches(steps, keywords) && steps <= more
    ensures AnyStepMatches(more, keywords)
  {
    var i :| 0 <= i < |steps| && StepMatches(steps, i, keywords);
    assert StepMatches(more, i, keywords);
  }

  /** Stages whose texts match their own keywords have nothing to add a second time. */
  lemma {:induction false} TailsMatch(steps: seq<Step>, stages: seq<Stage>, j: nat)
    requires j < |stages| && MatchesAny(stages[j].text, stages[j].keywords)
    ensures AnyStepMatches(WithTails(steps, stages), stages[j].keywords)
  {
    var n := |stages| - 1;
    var before, out := WithTails(steps, stages[..n]), WithTails(steps, stages);
    if j < n {
      TailsMatch(steps, stages[..n], j);
      MatchStays(before, out, stages[j].keywords);
    } else if !AnyStepMatches(before, stages[j].keywords) {
      assert StepMatches(out, |before|, stages[j].keywords);
    }
  }

  lemma {:induction false} NothingToAdd(steps: seq<Step>, stages: seq<Stage>)
    requires forall j | 0 <= j < |stages| :: AnyStepMatches(steps, stages[j].keywords)
    ensures WithTails(steps, stages) == steps
  {
    if stages != [] {
      NothingToAdd(steps, stages[..|stages| - 1]);
    }
  }

  lemma {:induction false} SetupMatches(steps: seq<Step>)
    ensures AnyStepMatches(WithSetup(steps), SETUP_KEYWORDS)
  {
    if !AnyStepMatches(steps, SETUP_KEYWORDS) {
      OwnSetupMatches();
      assert StepMatches(WithSetup(steps), 0, SETUP_KEYWORDS);
    }
  }

  lemma {:induction false} StillCodePlan(creates: string -> bool, task: string, steps: seq<Step>)
    requires IsCodePlan(creates, steps)
    ensures IsCodePlan(creates, Rewritten(creates, task, steps))
  {
    var off := if AnyStepMatches(steps, SETUP_KEYWORDS) then 0 else 1;
    var i :| 0 <= i < |steps| && creates(steps[i].description);
    OriginalsKept(creates, task, steps, off);
    assert Rewritten(creates, task, steps)[off + i].description == steps[i].description;
  }

  /** A second application changes nothing. */
  lemma {:induction false} RewritingIsIdempotent(creates: string -> bool, task: string, steps: seq<Step>,
                                                 out: seq<Step>)
    requires out == Rewritten(creates, task, steps)
    ensures Rewritten(creates, task, out) == out
  {
    if IsCodePlan(creates, steps) {
      StillCodePlan(creates, task, steps);
      SetupMatches(steps);
      TailsExtend(WithSetup(steps), Stages(task));
      MatchStays(WithSetup(steps), out, SETUP_KEYWORDS);
      forall j | 0 <= j < |Stages(task)| ensures AnyStepMatches(out, Stages(task)[j].keywords) {
        OwnVerifyMatches();
        OwnQaMatches();
        OwnServeMatches();
        TailsMatch(WithSetup(steps), Stages(task), j);
      }
      NothingToAdd(out, Stages(task));
    }
  }

  // ---- What a code plan gains ----

  lemma {:induction false} MaxIdIsThere(steps: seq<Step>)
    ensures MaxId(steps) == 0 || exists s :: s in steps && s.id == MaxId(steps)
  {
    if steps != [] {
      MaxIdIsThere(steps[..|steps| - 1]);
      assert steps[|steps| - 1] in steps;
    }
  }

  /** Step k was appended: no step before it matches the keywords; it has this text, waits for
      all of them, and its ID is the next one after theirs. */
  ghost predicate IsAppended(out: seq<Step>, k: nat, keywords: seq<string>, text: string)
    requires k < |out|
  {
    && !AnyStepMatches(out[..k], keywords)
    && out[k].description == text && out[k].toolHint == "terminal"
    && (forall d :: d in out[k].dependsOn <==> d in Ids(out[..k]))
    && (forall s | s in out[..k] :: s.id < out[k].id)
    && (out[k].id == 1 || exists s :: s in out[..k] && s.id == out[k].id - 1)
  }

  lemma {:induction false} AppendedStays(out: seq<Step>, more: seq<Step>, k: nat, keywords: seq<string>, text: string)
    requires out <= more && k < |out| && IsAppended(out, k, keywords, text)
    ensures IsAppended(more, k, keywords, text)
  {
    assert more[..k] == out[..k];
  }

  /** The steps from n on were appended by some of the stages, one each, in their order. */
  ghost predicate AppendedBy(out: seq<Step>, n: nat, stages: seq<Stage>, js: seq<nat>)
  {
    && |out| == n + |js| && (forall i | 0 <= i < |js| :: js[i] < |stages|)
    && (forall i, k | 0 <= i < k < |js| :: js[i] < js[k])
    && (forall i | 0 <= i < |js| :: IsAppended(out, n + i, stages[js[i]].keywords, stages[js[i]].text))
  }

  lemma {:induction false} TailAppended(front: seq<Step>, stage: Stage)
    requires !AnyStepMatches(front, stage.keywords)
    ensures IsAppended(WithTail(front, stage), |front|, stage.keywords, stage.text)
  {
    MaxIdIsThere(front);
    assert WithTail(front, stage)[..|front|] == front;
  }

  lemma {:induction false} NextAppended(front: seq<Step>, out: seq<Step>, n: nat, before: seq<Stage>, last: Stage,
                                        js: seq<nat>)
    returns (js': seq<nat>)
    requires AppendedBy(front, n, before, js) && out == WithTail(front, last)
    ensures AppendedBy(out, n, before + [last], js')
  {
    var stages := before + [last];
    forall i | 0 <= i < |js| ensures IsAppended(out, n + i, stages[js[i]].keywords, stages[js[i]].text) {
      AppendedStays(front, out, n + i, before[js[i]].keywords, before[js[i]].text);
    }
    js' := js;
    if !AnyStepMatches(front, last.keywords) {
      TailAppended(front, last);
      js' := js + [|before|];
    }
  }

  lemma {:induction false} TailsAppended(first: seq<Step>, stages: seq<Stage>) returns (js: seq<nat>)
    ensures AppendedBy(WithTails(first, stages), |first|, stages, js)
  {
    if stages == [] {
      js := [];
    } else {
      var m := |stages| - 1;
      assert stages == stages[..m] + [stages[m]];
      js := TailsAppended(first, stages[..m]);
      js := NextAppended(WithTails(first, stages[..m]), WithTails(first, stages), |first|, stages[..m], stages[m], js);
    }
  }

  /** The planner's step as it was, or waiting for SETUP as well. */
  ghost predicate IsOriginal(now: Step, was: Step, setup: bool) {
    && now.id == was.id && now.description == was.description && now.toolHint == was.toolHint
    && (forall d :: d in now.dependsOn <==> d in was.dependsOn || (setup && d == -1))
  }

  const STAGES := [VERIFY, QA, SERVE]

  lemma {:induction false} AmongStages(out: seq<Step>, n: nat, task: string, js: seq<nat>)
    requires AppendedBy(out, n, Stages(task), js)
    ensures AppendedBy(out, n, STAGES, js) && (2 in js ==> IsServeTask(task))
  {
    assert Stages(task) <= STAGES;
    forall i | 0 <= i < |js| ensures STAGES[js[i]] == Stages(task)[js[i]] {}
  }

  /** The plan begins with a SETUP step if one was added, and goes on with the originals. */
  ghost predicate BeginsWith(out: seq<Step>, steps: seq<Step>, setup: bool) {
    var off := if setup then 1 else 0;
    && |steps| + off <= |out| && (setup ==> out[0] == Step(-1, SETUP_TEXT, "terminal", []))
    && forall i | 0 <= i < |steps| :: IsOriginal(out[i + off], steps[i], setup)
  }

  lemma {:induction false} OriginalsStay(steps: seq<Step>, out: seq<Step>, setup: bool)
    requires WithSetup(steps) <= out && setup == !AnyStepMatches(steps, SETUP_KEYWORDS)
    ensures BeginsWith(out, steps, setup) && |WithSetup(steps)| == |steps| + if setup then 1 else 0
  {
    var off := if setup then 1 else 0;
    forall i | 0 <= i < |steps| ensures IsOriginal(out[i + off], steps[i], setup) {
      assert out[i + off] == WithSetup(steps)[i + off];
    }
  }

  /** The rewritten plan of one that creates files: a SETUP step unless some step is one, the
      planner's steps, and the VERIFY, QA and SERVE steps that were still missing, in this order. */
  lemma {:induction false} WhatIsGained(creates: string -> bool, task: string, steps: seq<Step>, setup: bool)
      returns (js: seq<nat>)
    requires exists i | 0 <= i < |steps| :: creates(steps[i].description)
    requires setup == !AnyStepMatches(steps, SETUP_KEYWORDS)
    ensures BeginsWith(Rewritten(creates, task, steps), steps, setup)
    ensures AppendedBy(Rewritten(creates, task, steps), |steps| + if setup then 1 else 0, STAGES, js)
    ensures 2 in js ==> IsServeTask(task)
  {
    var first := WithSetup(steps);
    var out := WithTails(first, Stages(task));
    TailsExtend(first, Stages(task));
    OriginalsStay(steps, out, setup);
    js := TailsAppended(first, Stages(task));
    AmongStages(out, |first|, task, js);
  }

  /** Every plan that creates files ends up with a step for each stage, SERVE if the task asks to
      see the result; any other plan stays as it is. */
  lemma {:induction false} EveryStageIsThere(creates: string -> bool, task: string, steps: seq<Step>)
    ensures var out := Rewritten(creates, task, steps);
            if exists i | 0 <= i < |steps| :: creates(steps[i].description) then
              && AnyStepMatches(out, SETUP_KEYWORDS) && AnyStepMatches(out, VERIFY_KEYWORDS)
              && AnyStepMatches(out, QA_KEYWORDS) && (IsServeTask(task) ==> AnyStepMatches(out, SERVE_KEYWORDS))
            else out == steps
  {
    if IsCodePlan(creates, steps) {
      SetupMatches(steps);
      TailsExtend(WithSetup(steps), Stages(task));
      MatchStays(WithSetup(steps), Rewritten(creates, task, steps), SETUP_KEYWORDS);
      OwnVerifyMatches();
      OwnQaMatches();
      OwnServeMatches();
      TailsMatch(WithSetup(steps), Stages(task), 0);
      TailsMatch(WithSetup(steps), Stages(task), 1);
      if IsServeTask(task) {
        TailsMatch(WithSetup(steps), Stages(task), 2);
      }
    }
  }
}
