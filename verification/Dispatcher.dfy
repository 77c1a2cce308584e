/** The plan dispatcher: rounds of concurrent workers under a semaphore, with the stall
    breaker (internal/agent/orchestrated.go, executeWorkers). */
module Dispatcher {
  import opened Base
  import opened Plan

  datatype WorkerResult = Answer(text: string) | Failed(err: string)

  /** What a run cannot see into: the worker of one step given its prior results, and the
      skill registry (None: no skill matches or the skill failed). */
  datatype Env = Env(worker: (Step, map<int, string>) -> WorkerResult, skill: Step -> Option<string>)

  /** The skill fast path applies only to steps hinted "skill". */
  function SkillOutput(env: Env, s: Step): Option<string> {
    if TrimSpace(s.toolHint) == "skill" then env.skill(s) else None
  }

  function WorkerOutput(env: Env, s: Step, prior: map<int, string>): string {
    match env.worker(s, prior)
    case Answer(text) => text
    case Failed(err) => "[worker error: " + err + "]"
  }

  function Outcome(env: Env, s: Step, prior: map<int, string>): string {
    match SkillOutput(env, s)
    case Some(out) => out
    case None => WorkerOutput(env, s, prior)
  }

  /** The results a worker may see: those of its declared dependencies. */
  function SnapshotPrior(s: Step, results: map<int, string>): map<int, string> {
    map d | d in s.dependsOn && d in results :: results[d]
  }

  // ---- What a worker is given and what its step leaves ----

  /** prior holds the results of the step's dependencies, all of them and nothing else. */
  ghost predicate DependencyResults(s: Step, prior: map<int, string>, results: map<int, string>) {
    && (forall d :: d in prior <==> d in s.dependsOn)
    && (forall d | d in prior :: d in results && prior[d] == results[d])
  }

  /** out is the skill's output for a step hinted "skill" that some skill can do; for any other
      step what the worker answers on prior, or a note of its error. */
  ghost predicate Produces(env: Env, s: Step, prior: map<int, string>, out: string) {
    if TrimSpace(s.toolHint) == "skill" && env.skill(s).Some? then out == env.skill(s).value
    else
      match env.worker(s, prior)
      case Answer(text) => out == text
      case Failed(err) => out == "[worker error: " + err + "]"
  }

  /** out comes from the step, given its dependencies' results. */
  ghost predicate ComesFrom(env: Env, s: Step, results: map<int, string>, out: string) {
    exists prior :: DependencyResults(s, prior, results) && Produces(env, s, prior, out)
  }

  lemma {:induction false} SnapshotGiven(env: Env, s: Step, results: map<int, string>)
    requires AllDepsDone(s, results.Keys)
    ensures DependencyResults(s, SnapshotPrior(s, results), results)
    ensures ComesFrom(env, s, results, Outcome(env, s, SnapshotPrior(s, results)))
  {
    var prior := SnapshotPrior(s, results);
    assert Produces(env, s, prior, Outcome(env, s, prior));
  }

  // ---- The reference: steps evaluated one at a time ----

  /** Evaluates the listed steps one after the other, each seeing what is there so far. */
  function SeqRun(env: Env, order: seq<Step>, results: map<int, string>): map<int, string> {
    if order == [] then results
    else
      var s := order[0];
      SeqRun(env, order[1..], results[s.id := Outcome(env, s, SnapshotPrior(s, results))])
  }

  /** results solves the dataflow equations of the steps: each step's entry is its outcome
      on the entries of its dependencies, all of which are there. */
  ghost predicate Solves(env: Env, s: Step, results: map<int, string>) {
    && s.id in results && AllDepsDone(s, results.Keys)
    && results[s.id] == Outcome(env, s, SnapshotPrior(s, results))
  }

  ghost predicate SolvesAll(env: Env, order: seq<Step>, results: map<int, string>) {
    forall i | 0 <= i < |order| :: Solves(env, order[i], results)
  }

  ghost predicate SameEntry(r1: map<int, string>, r2: map<int, string>, id: int) {
    id in r1 && id in r2 && r1[id] == r2[id]
  }

  /** The equations of a list in dependency order have at most one solution, so any two
      ways of meeting them, and any two dependency orders of one plan, agree. */
  lemma {:induction false} SolutionUnique(env: Env, order: seq<Step>, r1: map<int, string>, r2: map<int, string>,
                                          n: nat)
    requires Topological(order) && n <= |order|
    requires SolvesAll(env, order, r1) && SolvesAll(env, order, r2)
    ensures forall i | 0 <= i < n :: SameEntry(r1, r2, order[i].id)
  {
    if n > 0 {
      SolutionUnique(env, order, r1, r2, n - 1);
      var s := order[n - 1];
      assert Solves(env, s, r1) && Solves(env, s, r2);
      assert DepsBefore(order, n - 1);
      forall d | d in s.dependsOn ensures SameEntry(r1, r2, d) {
        var j :| 0 <= j < n - 1 && order[j].id == d;
      }
      SnapshotsAgree(s, r1, r2);
    }
  }

  lemma {:induction false} SnapshotsAgree(s: Step, r1: map<int, string>, r2: map<int, string>)
    requires forall d | d in s.dependsOn :: SameEntry(r1, r2, d)
    ensures SnapshotPrior(s, r1) == SnapshotPrior(s, r2)
  {
    var p1, p2 := SnapshotPrior(s, r1), SnapshotPrior(s, r2);
    forall d ensures d in p1 <==> d in p2 {
      assert d in s.dependsOn ==> SameEntry(r1, r2, d);
    }
    forall d | d in p1 ensures p1[d] == p2[d] {
      assert SameEntry(r1, r2, d);
    }
    assert p1 == p2;
  }

  // ---- One round of goroutines ----

  /** Where the goroutine of one batch step is. */
  datatype Phase =
    | Waiting                            // the fan-out loop has not reached it
    | Spawned                            // holds a semaphore slot
    | Snapped(prior: map<int, string>)   // copied its prior results under the lock
    | Ran(out: string)                   // the worker returned
    | Published                          // wrote its result under the lock
    | Released                           // gave the slot back

  datatype Round = Round(phases: seq<Phase>, spawned: nat, sem: nat, results: map<int, string>, done: set<int>)

  function RoundStart(n: nat, results: map<int, string>, done: set<int>): Round {
    Round(seq(n, i => Waiting), 0, 0, results, done)
  }

  /** Goroutine i can take its next atomic step: the fan-out loop spawns in batch order and
      blocks while all maxParallel slots are taken. */
  predicate Enabled(maxParallel: nat, st: Round, i: nat) {
    && i < |st.phases|
    && match st.phases[i]
       case Waiting => i == st.spawned && st.sem < maxParallel
       case Released => false
       case _ => true
  }

  function Publish(st: Round, i: nat, s: Step, out: string): Round
    requires i < |st.phases|
  {
    st.(phases := st.phases[i := Published], results := st.results[s.id := out], done := st.done + {s.id})
  }

  /** One atomic step of goroutine i of the batch. */
  function Advance(env: Env, batch: seq<Step>, st: Round, i: nat): Round
    requires i < |st.phases| == |batch|
  {
    var s := batch[i];
    match st.phases[i]
    case Waiting => st.(phases := st.phases[i := Spawned], spawned := st.spawned + 1, sem := st.sem + 1)
    case Spawned =>
      (match SkillOutput(env, s)
       case Some(out) => Publish(st, i, s, out)
       case None => st.(phases := st.phases[i := Snapped(SnapshotPrior(s, st.results))]))
    case Snapped(prior) => st.(phases := st.phases[i := Ran(WorkerOutput(env, s, prior))])
    case Ran(out) => Publish(st, i, s, out)
    case Published =>
      st.(phases := st.phases[i := Released], sem := if st.sem > 0 then st.sem - 1 else 0)
    case Released => st
  }

  predicate AllReleased(st: Round) {
    forall i | 0 <= i < |st.phases| :: st.phases[i].Released?
  }

  /** The goroutine holds a semaphore slot. */
  predicate InFlight(p: Phase) {
    !p.Waiting? && !p.Released?
  }

  function CountInFlight(phases: seq<Phase>): nat {
    if phases == [] then 0
    else (if InFlight(phases[0]) then 1 else 0) + CountInFlight(phases[1..])
  }

  /** What the fan-out loop relies on: a batch of unfinished steps, the results of whose
      dependencies are all there. */
  ghost predicate Ready(batch: seq<Step>, results: map<int, string>, done: set<int>) {
    results.Keys == done && forall s | s in batch :: Eligible(s, done)
  }

  /** The entry is the outcome of some batch step under this ID; of the only one, if the IDs
      are distinct. */
  ghost predicate EntryFrom(env: Env, batch: seq<Step>, results0: map<int, string>, results: map<int, string>, k: int) {
    exists s :: s in batch && s.id == k && k in results && results[k] == Outcome(env, s, SnapshotPrior(s, results0))
  }

  /** The entry comes from some step under this ID, given the results of its dependencies. */
  ghost predicate Caused(env: Env, steps: seq<Step>, given: map<int, string>, results: map<int, string>, k: int)
    requires k in results
  {
    exists s :: s in steps && s.id == k && ComesFrom(env, s, given, results[k])
  }

  /** What goroutine i has seen and produced is what it would have at the start of the round. */
  ghost predicate GoroutineOk(env: Env, s: Step, p: Phase, results0: map<int, string>, results: map<int, string>) {
    match p
    case Snapped(prior) =>
      SkillOutput(env, s).None? && prior == SnapshotPrior(s, results0) && DependencyResults(s, prior, results0)
    case Ran(out) => out == Outcome(env, s, SnapshotPrior(s, results0)) && ComesFrom(env, s, results0, out)
    case Waiting => true
    case Spawned => true
    case _ => s.id in results
  }

  /** The slots taken are those of the goroutines in flight; the others wait in batch order. */
  ghost predicate SlotsInv(n: nat, maxParallel: nat, st: Round) {
    && |st.phases| == n && st.spawned <= n
    && st.sem == CountInFlight(st.phases) && st.sem <= maxParallel
    && (forall i | 0 <= i < n :: st.phases[i].Waiting? <==> i >= st.spawned)
  }

  ghost predicate RoundInv(env: Env, batch: seq<Step>, maxParallel: nat,
                           results0: map<int, string>, done0: set<int>, st: Round) {
    && SlotsInv(|batch|, maxParallel, st)
    && (forall i | 0 <= i < |batch| :: GoroutineOk(env, batch[i], st.phases[i], results0, st.results))
    && st.results.Keys == st.done && st.done <= done0 + Ids(batch)
    && (forall k | k in done0 :: k in results0 && k in st.results && st.results[k] == results0[k])
    && (forall k | k in st.results && k !in done0 :: EntryFrom(env, batch, results0, st.results, k))
  }

  lemma {:induction false} CountUpdate(phases: seq<Phase>, i: nat, p: Phase)
    requires i < |phases|
    ensures CountInFlight(phases[i := p]) ==
            CountInFlight(phases) + (if InFlight(p) then 1 else 0) - (if InFlight(phases[i]) then 1 else 0)
  {
    if i == 0 {
      assert phases[i := p][1..] == phases[1..];
    } else {
      CountUpdate(phases[1..], i - 1, p);
      assert phases[i := p][1..] == phases[1..][i - 1 := p];
    }
  }

  lemma {:induction false} CountWaiting(phases: seq<Phase>)
    requires forall i | 0 <= i < |phases| :: !InFlight(phases[i])
    ensures CountInFlight(phases) == 0
  {
    if phases != [] {
      CountWaiting(phases[1..]);
    }
  }

  lemma {:induction false} RoundStartInv(env: Env, batch: seq<Step>, maxParallel: nat, results0: map<int, string>,
                                         done0: set<int>)
    requires Ready(batch, results0, done0)
    ensures RoundInv(env, batch, maxParallel, results0, done0, RoundStart(|batch|, results0, done0))
  {
    var st := RoundStart(|batch|, results0, done0);
    CountWaiting(st.phases);
    forall i | 0 <= i < |batch| ensures GoroutineOk(env, batch[i], st.phases[i], results0, st.results) {
      assert batch[i] in batch;
    }
  }

  lemma {:induction false} AdvanceSlots(env: Env, batch: seq<Step>, maxParallel: nat, st: Round, i: nat)
    requires SlotsInv(|batch|, maxParallel, st) && Enabled(maxParallel, st, i)
    ensures SlotsInv(|batch|, maxParallel, Advance(env, batch, st, i))
  {
    CountUpdate(st.phases, i, Advance(env, batch, st, i).phases[i]);
  }

  lemma {:induction false} AdvanceInv(env: Env, batch: seq<Step>, maxParallel: nat,
                                      results0: map<int, string>, done0: set<int>, st: Round, i: nat)
    requires Ready(batch, results0, done0) && RoundInv(env, batch, maxParallel, results0, done0, st)
    requires Enabled(maxParallel, st, i)
    ensures RoundInv(env, batch, maxParallel, results0, done0, Advance(env, batch, st, i))
  {
    var s, st' := batch[i], Advance(env, batch, st, i);
    assert s in batch && GoroutineOk(env, s, st.phases[i], results0, st.results);
    AdvanceSlots(env, batch, maxParallel, st, i);
    AdvanceGoroutines(env, batch, results0, done0, st, i, st');
    AdvanceEntries(env, batch, results0, st, i, st');
  }

  lemma {:induction false} AdvanceGoroutines(env: Env, batch: seq<Step>, results0: map<int, string>, done0: set<int>,
                                             st: Round, i: nat, st': Round)
    requires i < |st.phases| == |batch| && st' == Advance(env, batch, st, i) && Ready(batch, results0, done0)
    requires forall k | k in done0 :: k in results0 && k in st.results && st.results[k] == results0[k]
    requires forall j | 0 <= j < |batch| :: GoroutineOk(env, batch[j], st.phases[j], results0, st.results)
    ensures st'.phases == st.phases[i := st'.phases[i]]
    ensures forall j | 0 <= j < |batch| :: GoroutineOk(env, batch[j], st'.phases[j], results0, st'.results)
  {
    var s := batch[i];
    assert s in batch && GoroutineOk(env, s, st.phases[i], results0, st.results);
    PriorIsStable(batch, results0, done0, st.results, s);
    SnapshotGiven(env, s, results0);
    forall j | 0 <= j < |batch| ensures GoroutineOk(env, batch[j], st'.phases[j], results0, st'.results) {
      assert GoroutineOk(env, batch[j], st.phases[j], results0, st.results);
    }
  }

  /** A goroutine that publishes writes the outcome of its step; the others write nothing. */
  lemma {:induction false} AdvanceEntries(env: Env, batch: seq<Step>, results0: map<int, string>, st: Round, i: nat,
                                          st': Round)
    requires i < |st.phases| == |batch| && st' == Advance(env, batch, st, i)
    requires GoroutineOk(env, batch[i], st.phases[i], results0, st.results)
    ensures forall k | k in st'.results ::
              (k in st.results && st'.results[k] == st.results[k]) || EntryFrom(env, batch, results0, st'.results, k)
    ensures forall k | k in st.results && EntryFrom(env, batch, results0, st.results, k) ::
            EntryFrom(env, batch, results0, st'.results, k)
  {
    assert batch[i] in batch;
  }

  /** A running round never touches what its own workers may read. */
  lemma {:induction false} PriorIsStable(batch: seq<Step>, results0: map<int, string>, done0: set<int>,
                                         results: map<int, string>, s: Step)
    requires Ready(batch, results0, done0) && s in batch
    requires forall k | k in done0 :: k in results0 && k in results && results[k] == results0[k]
    ensures SnapshotPrior(s, results) == SnapshotPrior(s, results0)
    ensures DependencyResults(s, SnapshotPrior(s, results), results0)
  {
    forall d | d in s.dependsOn ensures SameEntry(results, results0, d) {
      assert d in done0;
    }
    SnapshotsAgree(s, results, results0);
  }

  // ---- Every interleaving of a round ----

  ghost predicate ValidSchedule(env: Env, batch: seq<Step>, maxParallel: nat, st: Round, sched: seq<nat>)
    requires |st.phases| == |batch|
    decreases |sched|
  {
    sched == [] ||
    (Enabled(maxParallel, st, sched[0]) &&
     ValidSchedule(env, batch, maxParallel, Advance(env, batch, st, sched[0]), sched[1..]))
  }

  ghost function RunSchedule(env: Env, batch: seq<Step>, maxParallel: nat, st: Round, sched: seq<nat>): Round
    requires |st.phases| == |batch| && ValidSchedule(env, batch, maxParallel, st, sched)
    decreases |sched|
  {
    if sched == [] then st
    else RunSchedule(env, batch, maxParallel, Advance(env, batch, st, sched[0]), sched[1..])
  }

  /** The atomic steps a goroutine still has to take. */
  ghost function Ahead(p: Phase): nat {
    match p case Waiting => 5 case Spawned => 4 case Snapped(_) => 3 case Ran(_) => 2 case Published =>
      1 case Released => 0
  }

  ghost function TotalAhead(phases: seq<Phase>): nat {
    if phases == [] then 0 else Ahead(phases[0]) + TotalAhead(phases[1..])
  }

  lemma {:induction false} AheadUpdate(phases: seq<Phase>, i: nat, p: Phase)
    requires i < |phases|
    ensures TotalAhead(phases[i := p]) == TotalAhead(phases) + Ahead(p) - Ahead(phases[i])
  {
    if i == 0 {
      assert phases[i := p][1..] == phases[1..];
    } else {
      AheadUpdate(phases[1..], i - 1, p);
      assert phases[i := p][1..] == phases[1..][i - 1 := p];
    }
  }

  lemma {:induction false} AdvanceProgress(env: Env, batch: seq<Step>, maxParallel: nat, st: Round, i: nat)
    requires |st.phases| == |batch| && Enabled(maxParallel, st, i)
    ensures TotalAhead(Advance(env, batch, st, i).phases) < TotalAhead(st.phases)
  {
    var st' := Advance(env, batch, st, i);
    AheadUpdate(st.phases, i, st'.phases[i]);
    assert st'.phases == st.phases[i := st'.phases[i]];
  }

  lemma {:induction false} SomeInFlight(phases: seq<Phase>) returns (i: nat)
    requires CountInFlight(phases) > 0
    ensures i < |phases| && InFlight(phases[i])
  {
    if InFlight(phases[0]) {
      i := 0;
    } else {
      var j := SomeInFlight(phases[1..]);
      i := j + 1;
    }
  }

  /** With at least one slot a round never deadlocks. */
  lemma {:induction false} RoundNotStuck(env: Env, batch: seq<Step>, maxParallel: nat,
                                         results0: map<int, string>, done0: set<int>, st: Round) returns (i: nat)
    requires maxParallel > 0 && RoundInv(env, batch, maxParallel, results0, done0, st) && !AllReleased(st)
    ensures Enabled(maxParallel, st, i)
  {
    if st.sem > 0 {
      i := SomeInFlight(st.phases);
    } else {
      var j :| 0 <= j < |batch| && !st.phases[j].Released?;
      if InFlight(st.phases[j]) {
        CountUpdate(st.phases, j, Released);
        assert false;
      }
      i := st.spawned;
    }
  }

  /** Whatever the interleaving of the goroutines: at most maxParallel hold a slot, every
      worker was given exactly its dependencies' results, some goroutine can go on until all
      have returned, and then the shared maps are those of evaluating the batch one step at
      a time. */
  lemma {:induction false} EveryInterleaving(env: Env, batch: seq<Step>, maxParallel: nat, results0: map<int, string>,
                                             done0: set<int>, st: Round, sched: seq<nat>)
    requires maxParallel > 0 && Ready(batch, results0, done0)
    requires RoundInv(env, batch, maxParallel, results0, done0, st) && ValidSchedule(env, batch, maxParallel, st, sched)
    ensures var end := RunSchedule(env, batch, maxParallel, st, sched);
            && RoundInv(env, batch, maxParallel, results0, done0, end)
            && |sched| <= TotalAhead(st.phases) - TotalAhead(end.phases)
            && (AllReleased(end) ==> RoundResults(env, batch, results0, end.results) && end.done == done0 + Ids(batch))
            && (AllReleased(end) && DistinctIds(batch) ==> end.results == SeqRun(env, batch, results0))
            && (!AllReleased(end) ==> exists i :: Enabled(maxParallel, end, i))
    decreases |sched|
  {
    if sched == [] {
      if AllReleased(st) {
        RoundEnd(env, batch, maxParallel, results0, done0, st);
      } else {
        var i := RoundNotStuck(env, batch, maxParallel, results0, done0, st);
      }
    } else {
      var i := sched[0];
      AdvanceInv(env, batch, maxParallel, results0, done0, st, i);
      AdvanceProgress(env, batch, maxParallel, st, i);
      EveryInterleaving(env, batch, maxParallel, results0, done0, Advance(env, batch, st, i), sched[1..]);
    }
  }

  ghost predicate Extends(r: map<int, string>, r0: map<int, string>) {
    forall k | k in r0 :: k in r && r[k] == r0[k]
  }

  /** Evaluating steps whose dependencies are already in r0 one at a time. */
  lemma {:induction false} SeqRunFacts(env: Env, batch: seq<Step>, r0: map<int, string>, r: map<int, string>)
    requires DistinctIds(batch) && Extends(r, r0)
    requires forall s | s in batch :: s.id !in r && AllDepsDone(s, r0.Keys)
    ensures var end := SeqRun(env, batch, r);
            && end.Keys == r.Keys + Ids(batch) && Extends(end, r)
            && (forall s | s in batch :: s.id in end && end[s.id] == Outcome(env, s, SnapshotPrior(s, r0)))
  {
    if batch != [] {
      var s, rest := batch[0], batch[1..];
      var r' := r[s.id := Outcome(env, s, SnapshotPrior(s, r))];
      assert batch == [s] + rest;
      DistinctCons(s, rest);
      PriorOf(s, r, r0);
      forall t | t in rest ensures t.id !in r' && AllDepsDone(t, r0.Keys) {
        assert t in batch && t.id in Ids(rest);
      }
      SeqRunFacts(env, rest, r0, r');
      assert Ids(batch) == {s.id} + Ids(rest);
    }
  }

  lemma {:induction false} PriorOf(s: Step, r: map<int, string>, r0: map<int, string>)
    requires Extends(r, r0) && AllDepsDone(s, r0.Keys)
    ensures SnapshotPrior(s, r) == SnapshotPrior(s, r0)
  {
    forall d | d in s.dependsOn ensures SameEntry(r, r0, d) {}
    SnapshotsAgree(s, r, r0);
  }

  /** results holds the old entries and, under every batch ID, an outcome on them. */
  ghost predicate RoundResults(env: Env, batch: seq<Step>, results0: map<int, string>, results: map<int, string>) {
    && results.Keys == results0.Keys + Ids(batch) && Extends(results, results0)
    && (forall k | k in Ids(batch) :: EntryFrom(env, batch, results0, results, k))
  }

  lemma {:induction false} RoundResultsUnique(env: Env, batch: seq<Step>, results0: map<int, string>,
                                              r1: map<int, string>, r2: map<int, string>)
    requires DistinctIds(batch) && RoundResults(env, batch, results0, r1) && RoundResults(env, batch, results0, r2)
    ensures r1 == r2
  {
    forall k | k in r1 ensures r1[k] == r2[k] {
      if k in Ids(batch) {
        assert EntryFrom(env, batch, results0, r1, k) && EntryFrom(env, batch, results0, r2, k);
        var s :| s in batch && s.id == k && r1[k] == Outcome(env, s, SnapshotPrior(s, results0));
        var t :| t in batch && t.id == k && r2[k] == Outcome(env, t, SnapshotPrior(t, results0));
        DistinctById(batch, s, t);
      }
    }
  }

  lemma {:induction false} SeqRunIsRound(env: Env, batch: seq<Step>, results0: map<int, string>, done0: set<int>)
    requires DistinctIds(batch) && Ready(batch, results0, done0)
    ensures RoundResults(env, batch, results0, SeqRun(env, batch, results0))
  {
    SeqRunFacts(env, batch, results0, results0);
  }

  /** When all goroutines have returned, the round has finished exactly its batch, with an
      outcome for each ID: if the IDs are distinct, with the results of the sequential run. */
  lemma {:induction false} RoundEnd(env: Env, batch: seq<Step>, maxParallel: nat,
                                    results0: map<int, string>, done0: set<int>, st: Round)
    requires Ready(batch, results0, done0) && RoundInv(env, batch, maxParallel, results0, done0, st) && AllReleased(st)
    ensures RoundResults(env, batch, results0, st.results) && st.done == done0 + Ids(batch)
    ensures DistinctIds(batch) ==> st.results == SeqRun(env, batch, results0)
  {
    forall x | x in done0 + Ids(batch) ensures x in st.results {
      if x !in done0 {
        var i :| 0 <= i < |batch| && batch[i].id == x;
        assert st.phases[i].Released? && GoroutineOk(env, batch[i], st.phases[i], results0, st.results);
      }
    }
    assert st.done == done0 + Ids(batch);
    forall k | k in Ids(batch) ensures EntryFrom(env, batch, results0, st.results, k) {
      assert k !in done0;
    }
    if DistinctIds(batch) {
      SeqRunIsRound(env, batch, results0, done0);
      RoundResultsUnique(env, batch, results0, st.results, SeqRun(env, batch, results0));
    }
  }

  // ---- The stall breaker ----

  const STALL_TAGS: seq<string> :=
    ["[worker error", "[VERIFICATION FAILED", "[no tool evidence", "[circuit breaker", "[step "]
  const MAX_STALLS := 3

  predicate IsStalledResult(out: string) {
    var text := TrimSpace(out);
    text == "" || exists i | 0 <= i < |STALL_TAGS| :: HasPrefix(text, STALL_TAGS[i])
  }

  /** The text is blank or begins with one of the notes of failure. */
  ghost predicate ShowsNoProgress(out: string) {
    var text := TrimSpace(out);
    || text == "" || HasPrefix(text, "[worker error") || HasPrefix(text, "[VERIFICATION FAILED")
    || HasPrefix(text, "[no tool evidence") || HasPrefix(text, "[circuit breaker") || HasPrefix(text, "[step ")
  }

  lemma {:induction false} StalledIs(out: string)
    ensures IsStalledResult(out) <==> ShowsNoProgress(out)
  {
    var text := TrimSpace(out);
    assert STALL_TAGS[0] == "[worker error" && STALL_TAGS[1] == "[VERIFICATION FAILED" &&
           STALL_TAGS[2] == "[no tool evidence" && STALL_TAGS[3] == "[circuit breaker" && STALL_TAGS[4] == "[step ";
  }

  /** Which of the listed steps' results show no progress, in order. */
  function StallFlags(order: seq<Step>, results: map<int, string>): seq<bool> {
    seq(|order|, i requires 0 <= i < |order| => order[i].id in results && IsStalledResult(results[order[i].id]))
  }

  /** The breaker's counter after scanning a batch; the scan ends at MAX_STALLS. */
  function StallScan(flags: seq<bool>, stalls: nat): nat {
    if flags == [] then stalls
    else
      var n := if flags[0] then stalls + 1 else 0;
      if n >= MAX_STALLS then n else StallScan(flags[1..], n)
  }

  /** Three results in a row show no progress. */
  ghost predicate TripleStall(flags: seq<bool>) {
    exists i | 0 <= i < |flags| - 2 :: flags[i] && flags[i + 1] && flags[i + 2]
  }

  /** The counter is the number of stalled results at the end of what has been scanned. */
  ghost predicate Counts(flags: seq<bool>, stalls: nat) {
    && stalls <= |flags|
    && (forall i | |flags| - stalls <= i < |flags| :: flags[i])
    && (stalls < |flags| ==> !flags[|flags| - stalls - 1])
  }

  lemma {:induction false} ScanOne(log: seq<bool>, stalls: nat, flag: bool)
    requires !TripleStall(log) && Counts(log, stalls) && stalls < MAX_STALLS
    ensures var n := if flag then stalls + 1 else 0;
            && Counts(log + [flag], n)
            && (TripleStall(log + [flag]) <==> n >= MAX_STALLS)
  {
    var log' := log + [flag];
    if TripleStall(log') {
      var i :| 0 <= i < |log'| - 2 && log'[i] && log'[i + 1] && log'[i + 2];
      assert i == |log| - 2;
    }
    if flag && stalls + 1 >= MAX_STALLS {
      var i := |log'| - 3;
      assert log'[i] && log'[i + 1] && log'[i + 2];
    }
  }

  lemma {:induction false} TripleInPrefix(log: seq<bool>, more: seq<bool>)
    requires TripleStall(log)
    ensures TripleStall(log + more)
  {
    var i :| 0 <= i < |log| - 2 && log[i] && log[i + 1] && log[i + 2];
    var l := log + more;
    assert l[i] && l[i + 1] && l[i + 2];
  }

  /** Scanning batch after batch trips exactly when the results so far hold three stalls in a row. */
  lemma {:induction false} StallScanIff(log: seq<bool>, flags: seq<bool>, stalls: nat)
    requires !TripleStall(log) && Counts(log, stalls) && stalls < MAX_STALLS
    ensures StallScan(flags, stalls) >= MAX_STALLS <==> TripleStall(log + flags)
    ensures StallScan(flags, stalls) < MAX_STALLS ==> Counts(log + flags, StallScan(flags, stalls))
    decreases |flags|
  {
    if flags == [] {
      assert log + flags == log;
    } else {
      ScanOne(log, stalls, flags[0]);
      var n := if flags[0] then stalls + 1 else 0;
      assert (log + [flags[0]]) + flags[1..] == log + flags;
      if n >= MAX_STALLS {
        TripleInPrefix(log + [flags[0]], flags[1..]);
      } else {
        StallScanIff(log + [flags[0]], flags[1..], n);
      }
    }
  }

  // ---- Whole runs ----

  datatype Verdict = Completed | Stuck | Stopped
  datatype Final = Final(results: map<int, string>, verdict: Verdict)

  /** The dispatcher with every batch evaluated one step at a time. */
  ghost function SeqDispatch(env: Env, steps: seq<Step>, results: map<int, string>, done: set<int>, stalls: nat): Final
    decreases |Ids(steps) - done|
  {
    var batch := Batch(steps, done);
    if |done| >= |steps| then Final(results, Completed)
    else if batch == [] then Final(results, Stuck)
    else
      var results' := SeqRun(env, batch, results);
      var n := StallScan(StallFlags(batch, results'), stalls);
      if n >= MAX_STALLS then Final(results', Stopped)
      else
        BatchShrinksRest(steps, done);
        SeqDispatch(env, steps, results', done + Ids(batch), n)
  }

  lemma {:induction false} BatchShrinksRest(steps: seq<Step>, done: set<int>)
    requires Batch(steps, done) != []
    ensures |Ids(steps) - (done + Ids(Batch(steps, done)))| < |Ids(steps) - done|
  {
    var s := Batch(steps, done)[0];
    assert s in Batch(steps, done) && s in steps;
    SubsetCardinality(Ids(steps) - (done + Ids(Batch(steps, done))), Ids(steps) - done);
  }

  /** Spawns and runs one batch under the semaphore. Which goroutine moves next is arbitrary. */
  method RunRound(env: Env, batch: seq<Step>, maxParallel: nat, results0: map<int, string>, done0: set<int>)
    returns (results: map<int, string>, done: set<int>)
    requires maxParallel > 0 && Ready(batch, results0, done0)
    ensures RoundResults(env, batch, results0, results) && done == done0 + Ids(batch) == results.Keys
    ensures DistinctIds(batch) ==> results == SeqRun(env, batch, results0)
  {
    var st := RoundStart(|batch|, results0, done0);
    RoundStartInv(env, batch, maxParallel, results0, done0);
    while !AllReleased(st)
      invariant RoundInv(env, batch, maxParallel, results0, done0, st)
      decreases TotalAhead(st.phases)
    {
      ghost var enabled := RoundNotStuck(env, batch, maxParallel, results0, done0, st);
      var i: nat :| i < |st.phases| && Enabled(maxParallel, st, i);
      AdvanceInv(env, batch, maxParallel, results0, done0, st, i);
      AdvanceProgress(env, batch, maxParallel, st, i);
      st := Advance(env, batch, st, i);
    }
    RoundEnd(env, batch, maxParallel, results0, done0, st);
    results, done := st.results, st.done;
  }

  /** The eligible steps of one round, in plan order. */
  method NextBatch(steps: seq<Step>, done: set<int>) returns (batch: seq<Step>)
    ensures batch == Batch(steps, done)
  {
    batch := [];
    for i := 0 to |steps|
      invariant batch == Batch(steps[..i], done)
    {
      assert steps[..i + 1][..i] == steps[..i];
      if steps[i].id !in done && AllDepsDone(steps[i], done) {
        batch := batch + [steps[i]];
      }
    }
    assert steps[..|steps|] == steps;
  }

  /** The breaker's pass over a finished batch: stops at the third stall in a row. */
  method CountStalls(batch: seq<Step>, results: map<int, string>, before: nat) returns (stalls: nat)
    requires Ids(batch) <= results.Keys && before < MAX_STALLS
    ensures stalls == StallScan(StallFlags(batch, results), before)
  {
    stalls := before;
    ghost var flags := StallFlags(batch, results);
    for i := 0 to |batch|
      invariant stalls < MAX_STALLS
      invariant StallScan(flags[i..], stalls) == StallScan(flags, before)
    {
      assert batch[i] in batch && batch[i].id in Ids(batch);
      if IsStalledResult(results[batch[i].id]) {
        stalls := stalls + 1;
      } else {
        stalls := 0;
      }
      assert flags[i..][1..] == flags[i + 1..];
      if stalls >= MAX_STALLS {
        return;
      }
    }
  }

  /** The entry solves the equation of some step under this ID. */
  ghost predicate SolvedAt(env: Env, steps: seq<Step>, results: map<int, string>, k: int) {
    exists s :: s in steps && s.id == k && Solves(env, s, results)
  }

  lemma {:induction false} RoundSolves(env: Env, steps: seq<Step>, results0: map<int, string>,
                                       results: map<int, string>, done0: set<int>)
    requires Ready(Batch(steps, done0), results0, done0) && RoundResults(env, Batch(steps, done0), results0, results)
    requires forall k | k in results0 :: SolvedAt(env, steps, results0, k)
    ensures forall k | k in results :: SolvedAt(env, steps, results, k)
  {
    var batch := Batch(steps, done0);
    forall k | k in results ensures SolvedAt(env, steps, results, k) {
      if k in results0 {
        var s :| s in steps && s.id == k && Solves(env, s, results0);
        SolvesStays(env, s, results0, results);
      } else {
        assert EntryFrom(env, batch, results0, results, k);
        var s :| s in batch && s.id == k && results[k] == Outcome(env, s, SnapshotPrior(s, results0));
        forall d | d in s.dependsOn ensures SameEntry(results0, results, d) {}
        SnapshotsAgree(s, results0, results);
      }
    }
  }

  lemma {:induction false} SolvedIsCaused(env: Env, steps: seq<Step>, results: map<int, string>, k: int)
    requires k in results && SolvedAt(env, steps, results, k)
    ensures Caused(env, steps, results, results, k)
  {
    var s :| s in steps && s.id == k && Solves(env, s, results);
    SnapshotGiven(env, s, results);
  }

  /** executeWorkers: however the goroutines interleave, the results and the verdict are
      those of the one-at-a-time reference if the IDs are distinct. For any plan every result
      comes from a step under its ID, whose worker was given the final results of exactly that
      step's dependencies, and with duplicate IDs the run does not complete. */
  method ExecuteWorkers(env: Env, steps: seq<Step>, maxParallel: nat)
    returns (results: map<int, string>, verdict: Verdict)
    requires maxParallel > 0
    ensures DistinctIds(steps) ==> Final(results, verdict) == SeqDispatch(env, steps, map[], {}, 0)
    ensures results.Keys <= Ids(steps) && forall k | k in results :: SolvedAt(env, steps, results, k)
    ensures forall k | k in results :: Caused(env, steps, results, results, k)
    ensures !DistinctIds(steps) ==> verdict != Completed
  {
    results := map[];
    var done: set<int> := {};
    var consecutiveStalls: nat := 0;
    ghost var final := SeqDispatch(env, steps, map[], {}, 0);
    IdsCardinality(steps);
    while |done| < |steps|
      invariant results.Keys == done <= Ids(steps) && consecutiveStalls < MAX_STALLS
      invariant DistinctIds(steps) ==> SeqDispatch(env, steps, results, done, consecutiveStalls) == final
      invariant forall k | k in results :: SolvedAt(env, steps, results, k)
      invariant forall k | k in results :: Caused(env, steps, results, results, k)
      decreases |Ids(steps) - done|
    {
      var batch := NextBatch(steps, done);
      if batch == [] {
        return results, Stuck;
      }
      BatchShrinksRest(steps, done);
      ghost var results0, done0 := results, done;
      results, done := RunRound(env, batch, maxParallel, results, done);
      RoundSolves(env, steps, results0, results, done0);
      forall k | k in results ensures Caused(env, steps, results, results, k) {
        SolvedIsCaused(env, steps, results, k);
      }
      if DistinctIds(steps) {
        BatchDistinct(steps, done0);
      }
      consecutiveStalls := CountStalls(batch, results, consecutiveStalls);
      if consecutiveStalls >= MAX_STALLS {
        return results, Stopped;
      }
    }
    SubsetCardinality(done, Ids(steps));
    return results, Completed;
  }

  // ---- What the reference run is worth ----

  /** Evaluating a list in dependency order solves every step's equation. */
  lemma {:induction false} SeqRunSolves(env: Env, order: seq<Step>, n: nat, r: map<int, string>)
    requires Topological(order) && n <= |order| && r.Keys == Ids(order[..n])
    requires forall i | 0 <= i < n :: Solves(env, order[i], r)
    ensures SeqRun(env, order[n..], r).Keys == Ids(order)
    ensures SolvesAll(env, order, SeqRun(env, order[n..], r))
    decreases |order| - n
  {
    if n == |order| {
      assert order[..n] == order;
    } else {
      var r' := r[order[n].id := Outcome(env, order[n], SnapshotPrior(order[n], r))];
      SeqRunOne(env, order, n, r);
      assert DepsBefore(order, n);
      NotBefore(order, n);
      forall i | 0 <= i < n + 1 ensures Solves(env, order[i], r') {
        if i < n {
          SolvesStays(env, order[i], r, r');
        } else {
          SolvesNew(env, order[n], r);
        }
      }
      SeqRunSolves(env, order, n + 1, r');
    }
  }

  lemma {:induction false} SeqRunOne(env: Env, order: seq<Step>, n: nat, r: map<int, string>)
    requires n < |order|
    ensures SeqRun(env, order[n..], r) ==
            SeqRun(env, order[n + 1..], r[order[n].id := Outcome(env, order[n], SnapshotPrior(order[n], r))])
    ensures Ids(order[..n + 1]) == Ids(order[..n]) + {order[n].id}
  {
    assert order[n..][1..] == order[n + 1..];
    assert order[..n + 1] == order[..n] + [order[n]];
  }

  lemma {:induction false} NotBefore(order: seq<Step>, n: nat)
    requires DistinctIds(order) && n < |order|
    ensures order[n].id !in Ids(order[..n])
  {
    forall t | t in order[..n] ensures t.id != order[n].id {
      var i :| 0 <= i < n && order[i] == t;
    }
  }

  lemma {:induction false} SolvesStays(env: Env, s: Step, r: map<int, string>, r': map<int, string>)
    requires Solves(env, s, r) && Extends(r', r)
    ensures Solves(env, s, r')
  {
    forall d | d in s.dependsOn ensures SameEntry(r, r', d) {}
    SnapshotsAgree(s, r, r');
  }

  lemma {:induction false} SolvesNew(env: Env, s: Step, r: map<int, string>)
    requires s.id !in r && AllDepsDone(s, r.Keys)
    ensures Solves(env, s, r[s.id := Outcome(env, s, SnapshotPrior(s, r))])
  {
    var r' := r[s.id := Outcome(env, s, SnapshotPrior(s, r))];
    forall d | d in s.dependsOn ensures SameEntry(r, r', d) {}
    SnapshotsAgree(s, r, r');
  }

  lemma {:induction false} SeqRunAppend(env: Env, a: seq<Step>, b: seq<Step>, r: map<int, string>)
    ensures SeqRun(env, a + b, r) == SeqRun(env, b, SeqRun(env, a, r))
    decreases |a|
  {
    if a == [] {
      assert a + b == b;
    } else {
      assert (a + b)[1..] == a[1..] + b;
      SeqRunAppend(env, a[1..], b, r[a[0].id := Outcome(env, a[0], SnapshotPrior(a[0], r))]);
    }
  }

  /** Appending a batch of eligible steps keeps dependency order. */
  lemma {:induction false} TopologicalAppend(order: seq<Step>, batch: seq<Step>)
    requires Topological(order) && DistinctIds(batch)
    requires forall s | s in batch :: Eligible(s, Ids(order))
    ensures Topological(order + batch) && Ids(order + batch) == Ids(order) + Ids(batch)
  {
    var all := order + batch;
    forall i, j | 0 <= i < j < |all| ensures all[i].id != all[j].id {
      if i < |order| <= j {
        assert all[j] in batch && all[i] in order;
        assert all[i].id in Ids(order);
      }
    }
    forall i | 0 <= i < |all| ensures DepsBefore(all, i) {
      if i < |order| {
        assert all[..i] == order[..i];
        assert DepsBefore(order, i);
      } else {
        assert all[i] in batch && order <= all[..i];
        assert forall t | t in order :: t in all[..i];
      }
    }
  }

  /** The steps of the first n rounds, round by round. */
  ghost function InRounds(steps: seq<Step>, n: nat): seq<Step> {
    if n == 0 then [] else InRounds(steps, n - 1) + Batch(steps, DoneAfter(steps, n - 1))
  }

  /** A run in progress after r rounds: order lists the steps started so far. */
  ghost predicate RunState(env: Env, steps: seq<Step>, r: nat, order: seq<Step>, results: map<int, string>,
                           done: set<int>, stalls: nat) {
    && done == DoneAfter(steps, r) == Ids(order) && order == InRounds(steps, r)
    && Topological(order) && (forall s | s in order :: s in steps)
    && results == SeqRun(env, order, map[]) && results.Keys == done
    && !TripleStall(StallFlags(order, results))
    && Counts(StallFlags(order, results), stalls) && stalls < MAX_STALLS
  }

  /** What a finished run of so many rounds guarantees, order being the steps it started, in
      start order. */
  ghost predicate RunResult(env: Env, steps: seq<Step>, rounds: nat, order: seq<Step>, final: Final) {
    && order == InRounds(steps, rounds) && Topological(order) && (forall s | s in order :: s in steps)
    && final.results == SeqRun(env, order, map[]) && final.results.Keys == Ids(order)
    && (final.verdict == Stopped <==> TripleStall(StallFlags(order, final.results)))
    && (final.verdict == Completed ==> Ids(order) == Ids(steps) && !Missing(steps) && !Cyclic(steps))
    && (final.verdict == Stuck ==> Missing(steps) || Cyclic(steps))
  }

  lemma {:induction false} RunRoundState(env: Env, steps: seq<Step>, r: nat, order: seq<Step>,
                                         results: map<int, string>,
                                         done: set<int>, stalls: nat)
    requires DistinctIds(steps) && RunState(env, steps, r, order, results, done, stalls)
    ensures var batch := Batch(steps, done);
            var order', results' := order + batch, SeqRun(env, batch, results);
            var n := StallScan(StallFlags(batch, results'), stalls);
            && Topological(order') && (forall s | s in order' :: s in steps)
            && results' == SeqRun(env, order', map[]) && results'.Keys == Ids(order') == done + Ids(batch)
            && (n >= MAX_STALLS <==> TripleStall(StallFlags(order', results')))
            && (n < MAX_STALLS ==> RunState(env, steps, r + 1, order', results', done + Ids(batch), n))
  {
    var batch := Batch(steps, done);
    var order', results' := order + batch, SeqRun(env, batch, results);
    BatchDistinct(steps, done);
    BatchIds(steps, done);
    TopologicalAppend(order, batch);
    SeqRunAppend(env, order, batch, map[]);
    assert order'[0..] == order' && order'[..0] == [];
    SeqRunSolves(env, order', 0, map[]);
    BatchKeepsOld(env, order, batch, results);
    FlagsAppend(order, batch, results, results');
    StallScanIff(StallFlags(order, results), StallFlags(batch, results'), stalls);
  }

  lemma {:induction false} BatchKeepsOld(env: Env, order: seq<Step>, batch: seq<Step>, results: map<int, string>)
    requires results.Keys == Ids(order) && DistinctIds(batch)
    requires forall s | s in batch :: Eligible(s, Ids(order))
    ensures Extends(SeqRun(env, batch, results), results)
  {
    SeqRunFacts(env, batch, results, results);
  }

  lemma {:induction false} FlagsAppend(order: seq<Step>, batch: seq<Step>, results: map<int, string>,
                                       results': map<int, string>)
    requires results.Keys == Ids(order) && Extends(results', results)
    ensures StallFlags(order + batch, results') == StallFlags(order, results) + StallFlags(batch, results')
  {
    forall i | 0 <= i < |order| ensures SameEntry(results, results', order[i].id) {
      assert order[i] in order;
      assert order[i].id in Ids(order);
    }
    forall i | 0 <= i < |order + batch|
      ensures StallFlags(order + batch, results')[i] == (StallFlags(order, results) + StallFlags(batch, results'))[i] {
      if i < |order| {
        assert SameEntry(results, results', order[i].id);
      } else {
        assert (order + batch)[i] == batch[i - |order|];
      }
    }
  }

  lemma {:induction false} DispatchStops(env: Env, steps: seq<Step>, r: nat, order: seq<Step>,
                                         results: map<int, string>, done: set<int>, stalls: nat)
    requires DistinctIds(steps) && RunState(env, steps, r, order, results, done, stalls)
    requires var batch := Batch(steps, done);
             StallScan(StallFlags(batch, SeqRun(env, batch, results)), stalls) >= MAX_STALLS
    ensures var batch := Batch(steps, done);
            RunResult(env, steps, r + 1, order + batch, Final(SeqRun(env, batch, results), Stopped))
  {
    RunRoundState(env, steps, r, order, results, done, stalls);
  }

  lemma {:induction false} DispatchFrom(env: Env, steps: seq<Step>, r: nat, order: seq<Step>, results: map<int, string>,
                                        done: set<int>, stalls: nat) returns (rounds: nat, order': seq<Step>)
    requires DistinctIds(steps) && RunState(env, steps, r, order, results, done, stalls)
    ensures RunResult(env, steps, rounds, order', SeqDispatch(env, steps, results, done, stalls))
    decreases |Ids(steps) - done|
  {
    var batch := Batch(steps, done);
    if |done| >= |steps| || batch == [] {
      DispatchEnds(env, steps, r, order, results, done, stalls);
      rounds, order' := r, order;
    } else {
      var results' := SeqRun(env, batch, results);
      var n := StallScan(StallFlags(batch, results'), stalls);
      if n >= MAX_STALLS {
        DispatchStops(env, steps, r, order, results, done, stalls);
        rounds, order' := r + 1, order + batch;
      } else {
        RunRoundState(env, steps, r, order, results, done, stalls);
        BatchShrinksRest(steps, done);
        rounds, order' := DispatchFrom(env, steps, r + 1, order + batch, results', done + Ids(batch), n);
      }
    }
  }

  /** The loop ends because all steps are done or none is eligible. */
  lemma {:induction false} DispatchEnds(env: Env, steps: seq<Step>, r: nat, order: seq<Step>, results: map<int, string>,
                                        done: set<int>, stalls: nat)
    requires DistinctIds(steps) && RunState(env, steps, r, order, results, done, stalls)
    requires |done| >= |steps| || Batch(steps, done) == []
    ensures RunResult(env, steps, r, order, SeqDispatch(env, steps, results, done, stalls))
  {
    DoneWithinIds(steps, r);
    IdsCardinality(steps);
    SubsetCardinality(done, Ids(steps));
    BatchIds(steps, done);
    if |done| >= |steps| {
      AllDoneNeedsGoodPlan(steps, r);
    } else {
      StuckIff(steps, r);
    }
  }

  lemma {:induction false} RunOrder(env: Env, steps: seq<Step>) returns (rounds: nat, order: seq<Step>)
    requires DistinctIds(steps)
    ensures RunResult(env, steps, rounds, order, SeqDispatch(env, steps, map[], {}, 0))
  {
    assert RunState(env, steps, 0, [], map[], {}, 0) by {
      assert Ids([]) == {} && StallFlags([], map[]) == [];
    }
    rounds, order := DispatchFrom(env, steps, 0, [], map[], {}, 0);
  }

  /** Every run: steps start at most once and after their dependencies; the breaker stops it
      exactly when three results in a row, in start order, show no progress; and when it does
      not, the run is stuck exactly if a dependency is missing or there is a cycle. */
  lemma {:induction false} DispatchCorrect(env: Env, steps: seq<Step>)
    requires DistinctIds(steps)
    ensures Explained(env, steps, SeqDispatch(env, steps, map[], {}, 0))
  {
    var rounds, order := RunOrder(env, steps);
    ResultExplains(env, steps, rounds, order, SeqDispatch(env, steps, map[], {}, 0));
  }

  ghost predicate NoProgressAt(order: seq<Step>, results: map<int, string>, i: nat)
    requires i < |order|
  {
    order[i].id in results && ShowsNoProgress(results[order[i].id])
  }

  /** A run is stopped exactly if three steps in a row, in start order, left blank texts or
      notes of failure. */
  lemma {:induction false} StoppedIff(env: Env, steps: seq<Step>, rounds: nat, order: seq<Step>, final: Final)
    requires RunResult(env, steps, rounds, order, final)
    ensures final.verdict == Stopped <==> exists i: nat | i + 2 < |order| ::
              NoProgressAt(order, final.results, i) && NoProgressAt(order, final.results, i + 1) &&
              NoProgressAt(order, final.results, i + 2)
  {
    var flags := StallFlags(order, final.results);
    forall i | 0 <= i < |order| ensures flags[i] == NoProgressAt(order, final.results, i) {
      if order[i].id in final.results {
        StalledIs(final.results[order[i].id]);
      }
    }
  }

  /** Some start order explains what the run returned, and its verdict says what it should. */
  ghost predicate Explained(env: Env, steps: seq<Step>, final: Final) {
    && (exists rounds, order :: RunResult(env, steps, rounds, order, final))
    && (final.verdict != Stopped ==> (final.verdict == Stuck <==> Missing(steps) || Cyclic(steps)))
  }

  lemma {:induction false} ResultExplains(env: Env, steps: seq<Step>, rounds: nat, order: seq<Step>, final: Final)
    requires RunResult(env, steps, rounds, order, final)
    ensures Explained(env, steps, final)
  {
  }

  /** Each step a run starts, it starts in the round of its longest dependency chain, counting
      both from zero; a step listed earlier in the start order starts no later. */
  lemma {:induction false} StartsInChainRound(env: Env, steps: seq<Step>, rounds: nat, order: seq<Step>, final: Final,
                                              i: nat)
    returns (r: nat)
    requires DistinctIds(steps) && RunResult(env, steps, rounds, order, final) && i < |order|
    ensures r < rounds && StartsIn(steps, order[i], r) && LongestChain(steps, order[i].id, r + 1)
    ensures i < |InRounds(steps, r + 1)| && i >= |InRounds(steps, r)|
  {
    r := RoundOf(steps, rounds, i);
    StartGivesLongestChain(steps, order[i], r);
  }

  lemma {:induction false} LastRound(steps: seq<Step>, r: nat, i: nat)
    requires |InRounds(steps, r)| <= i < |InRounds(steps, r + 1)|
    ensures StartsIn(steps, InRounds(steps, r + 1)[i], r)
  {
    var front, batch := InRounds(steps, r), Batch(steps, DoneAfter(steps, r));
    assert (front + batch)[i] == batch[i - |front|];
  }

  lemma {:induction false} RoundOf(steps: seq<Step>, rounds: nat, i: nat) returns (r: nat)
    requires i < |InRounds(steps, rounds)|
    ensures r < rounds && StartsIn(steps, InRounds(steps, rounds)[i], r)
    ensures |InRounds(steps, r)| <= i < |InRounds(steps, r + 1)|
  {
    var front := InRounds(steps, rounds - 1);
    if i < |front| {
      r := RoundOf(steps, rounds - 1, i);
    } else {
      r := rounds - 1;
      LastRound(steps, r, i);
    }
  }

  /** A completed run has the results of evaluating the plan one step at a time, in whatever
      order that respects the dependencies. */
  lemma {:induction false} AnyOrderSameResults(env: Env, steps: seq<Step>, order: seq<Step>)
    requires DistinctIds(steps) && Topological(order) && Rearranges(steps, order)
    ensures var final := SeqDispatch(env, steps, map[], {}, 0);
            final.verdict == Completed ==> final.results == SeqRun(env, order, map[])
  {
    var rounds, started := RunOrder(env, steps);
    if SeqDispatch(env, steps, map[], {}, 0).verdict == Completed {
      SameStepsSameResults(env, steps, started, order);
    }
  }

  /** The same steps, in whatever order. */
  ghost predicate Rearranges(steps: seq<Step>, order: seq<Step>) {
    forall s :: s in order <==> s in steps
  }

  lemma {:induction false} WholeRunSolves(env: Env, order: seq<Step>)
    requires Topological(order)
    ensures SeqRun(env, order, map[]).Keys == Ids(order) && SolvesAll(env, order, SeqRun(env, order, map[]))
  {
    assert order[0..] == order && order[..0] == [];
    SeqRunSolves(env, order, 0, map[]);
  }

  lemma {:induction false} SameStepsSameResults(env: Env, steps: seq<Step>, a: seq<Step>, b: seq<Step>)
    requires DistinctIds(steps) && Topological(a) && Topological(b)
    requires (forall s | s in a :: s in steps) && Ids(a) == Ids(steps) && (forall s :: s in b <==> s in steps)
    ensures SeqRun(env, a, map[]) == SeqRun(env, b, map[])
  {
    var ra, rb := SeqRun(env, a, map[]), SeqRun(env, b, map[]);
    WholeRunSolves(env, a);
    WholeRunSolves(env, b);
    forall i | 0 <= i < |b| ensures Solves(env, b[i], ra) {
      assert b[i] in b && b[i].id in Ids(a);
      var j :| 0 <= j < |a| && a[j].id == b[i].id;
      assert a[j] in a;
      DistinctById(steps, a[j], b[i]);
    }
    SolutionUnique(env, b, ra, rb, |b|);
    SolutionKeys(b, steps, ra, rb);
  }

  lemma {:induction false} SolutionKeys(b: seq<Step>, steps: seq<Step>, ra: map<int, string>, rb: map<int, string>)
    requires ra.Keys == Ids(steps) && rb.Keys == Ids(b) && (forall s :: s in b <==> s in steps)
    requires forall i | 0 <= i < |b| :: SameEntry(ra, rb, b[i].id)
    ensures ra == rb
  {
    assert Ids(b) == Ids(steps);
    forall k | k in rb ensures SameEntry(ra, rb, k) {
      var i :| 0 <= i < |b| && b[i].id == k;
    }
  }
}
