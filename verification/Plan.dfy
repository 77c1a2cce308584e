/** Plans as dependency graphs: which steps a dispatch round may start, and what
    the rounds reach (internal/agent/orchestrated.go). */
module Plan {
  datatype Step = Step(id: int, description: string, toolHint: string, dependsOn: seq<int>)

  ghost function Ids(steps: seq<Step>): set<int> {
    set s | s in steps :: s.id
  }

  ghost predicate DistinctIds(steps: seq<Step>) {
    forall i, j | 0 <= i < j < |steps| :: steps[i].id != steps[j].id
  }

  /** Every dependency of s has finished. */
  predicate AllDepsDone(s: Step, done: set<int>) {
    forall d | d in s.dependsOn :: d in done
  }

  predicate Eligible(s: Step, done: set<int>) {
    s.id !in done && AllDepsDone(s, done)
  }

  /** The steps one round starts: not finished, dependencies finished, plan order kept. */
  function Batch(steps: seq<Step>, done: set<int>): (batch: seq<Step>)
    ensures forall s :: s in batch <==> s in steps && Eligible(s, done)
  {
    if steps == [] then []
    else
      var last := steps[|steps| - 1];
      Batch(steps[..|steps| - 1], done) + (if Eligible(last, done) then [last] else [])
  }

  /** The IDs one round starts and, a round being waited for, finishes. */
  ghost function Started(steps: seq<Step>, done: set<int>): set<int> {
    set s | s in steps && Eligible(s, done) :: s.id
  }

  /** The IDs finished after r rounds, whatever the workers answered. */
  ghost function DoneAfter(steps: seq<Step>, r: nat): set<int> {
    if r == 0 then {}
    else DoneAfter(steps, r - 1) + Started(steps, DoneAfter(steps, r - 1))
  }

  /** Step s starts in round r, counting from 0. */
  ghost predicate StartsIn(steps: seq<Step>, s: Step, r: nat) {
    s in steps && Eligible(s, DoneAfter(steps, r))
  }

  /** Step a waits for step b. */
  ghost predicate Edge(steps: seq<Step>, a: int, b: int) {
    exists s :: s in steps && s.id == a && b in s.dependsOn
  }

  /** Some step waits for an ID that no step carries. */
  ghost predicate Missing(steps: seq<Step>) {
    exists s, d :: s in steps && d in s.dependsOn && d !in Ids(steps)
  }

  /** p walks along the plan's edges, each entry waiting for the next. */
  ghost predicate IsWalk(steps: seq<Step>, p: seq<int>) {
    forall i | 0 <= i < |p| - 1 :: Edge(steps, p[i], p[i + 1])
  }

  ghost predicate IsCycle(steps: seq<Step>, p: seq<int>) {
    |p| >= 2 && p[0] == p[|p| - 1] && IsWalk(steps, p)
  }

  ghost predicate Cyclic(steps: seq<Step>) {
    exists p :: IsCycle(steps, p)
  }

  ghost predicate DepsBefore(order: seq<Step>, i: nat)
    requires i < |order|
  {
    AllDepsDone(order[i], Ids(order[..i]))
  }

  /** Every step comes after its dependencies. */
  ghost predicate Topological(order: seq<Step>) {
    && DistinctIds(order)
    && forall i {:trigger DepsBefore(order, i)} | 0 <= i < |order| :: DepsBefore(order, i)
  }

  // ---- Facts about batches and rounds ----

  lemma {:induction false} BatchIds(steps: seq<Step>, done: set<int>)
    ensures Ids(Batch(steps, done)) == Started(steps, done)
    ensures Batch(steps, done) == [] <==> Started(steps, done) == {}
  {
    var batch := Batch(steps, done);
    assert forall s :: s in batch <==> s in steps && Eligible(s, done);
    if batch != [] {
      assert batch[0] in batch;
      assert batch[0].id in Started(steps, done);
    }
  }

  lemma {:induction false} BatchDistinct(steps: seq<Step>, done: set<int>)
    requires DistinctIds(steps)
    ensures DistinctIds(Batch(steps, done))
  {
    if steps != [] {
      var front, last := steps[..|steps| - 1], steps[|steps| - 1];
      BatchDistinct(front, done);
      forall s | s in Batch(front, done) ensures s.id != last.id {
        var k :| 0 <= k < |front| && front[k] == s;
        assert steps[k] == s;
      }
    }
  }

  lemma {:induction false} DistinctById(steps: seq<Step>, s: Step, t: Step)
    requires DistinctIds(steps) && s in steps && t in steps && s.id == t.id
    ensures s == t
  {
    var i :| 0 <= i < |steps| && steps[i] == s;
    var j :| 0 <= j < |steps| && steps[j] == t;
    assert i == j by { if i < j { assert false; } else if j < i { assert false; } }
  }

  lemma {:induction false} DoneWithinIds(steps: seq<Step>, r: nat)
    ensures DoneAfter(steps, r) <= Ids(steps)
  {
    if r > 0 {
      DoneWithinIds(steps, r - 1);
    }
  }

  lemma {:induction false} DoneMonotone(steps: seq<Step>, r: nat, q: nat)
    requires r <= q
    ensures DoneAfter(steps, r) <= DoneAfter(steps, q)
    decreases q
  {
    if r < q {
      DoneMonotone(steps, r, q - 1);
    }
  }

  /** With distinct IDs a finished step had all its dependencies finished one round earlier. */
  lemma {:induction false} DoneHadDeps(steps: seq<Step>, r: nat, s: Step)
    requires DistinctIds(steps) && s in steps && s.id in DoneAfter(steps, r)
    ensures r > 0 && AllDepsDone(s, DoneAfter(steps, r - 1))
  {
    if r > 0 {
      if s.id in DoneAfter(steps, r - 1) {
        DoneHadDeps(steps, r - 1, s);
        DoneMonotone(steps, r - 2, r - 1);
      } else {
        var t :| t in steps && Eligible(t, DoneAfter(steps, r - 1)) && t.id == s.id;
        DistinctById(steps, s, t);
      }
    }
  }

  lemma {:induction false} DistinctCons(s: Step, rest: seq<Step>)
    ensures DistinctIds([s] + rest) <==> DistinctIds(rest) && s.id !in Ids(rest)
  {
    var steps := [s] + rest;
    if DistinctIds(steps) {
      forall i, j | 0 <= i < j < |rest| ensures rest[i].id != rest[j].id {
        assert steps[i + 1].id != steps[j + 1].id;
      }
      forall t | t in rest ensures t.id != s.id {
        var k :| 0 <= k < |rest| && rest[k] == t;
        assert steps[0].id != steps[k + 1].id;
      }
    }
    if DistinctIds(rest) && s.id !in Ids(rest) {
      forall i, j | 0 <= i < j < |steps| ensures steps[i].id != steps[j].id {
        assert steps[j] == rest[j - 1] && rest[j - 1] in rest;
      }
    }
  }

  lemma {:induction false} IdsCardinality(steps: seq<Step>)
    ensures |Ids(steps)| <= |steps|
    ensures |Ids(steps)| == |steps| <==> DistinctIds(steps)
  {
    if steps == [] {
      assert Ids(steps) == {};
    } else {
      var s, rest := steps[0], steps[1..];
      IdsCardinality(rest);
      DistinctCons(s, rest);
      assert steps == [s] + rest;
      assert Ids(steps) == {s.id} + Ids(rest);
    }
  }

  // ---- Stuck exactly for a missing dependency or a cycle ----

  /** Along a walk inside the finished set, finishing rounds strictly decrease. */
  lemma {:induction false} WalkFinishesEarlier(steps: seq<Step>, p: seq<int>, r: nat, k: nat)
    requires DistinctIds(steps) && IsWalk(steps, p) && k < |p|
    requires p[0] in DoneAfter(steps, r)
    ensures r >= k && p[k] in DoneAfter(steps, r - k)
  {
    if k > 0 {
      WalkFinishesEarlier(steps, p, r, k - 1);
      assert Edge(steps, p[k - 1], p[k - 1 + 1]);
      var s :| s in steps && s.id == p[k - 1] && p[k] in s.dependsOn;
      DoneHadDeps(steps, r - (k - 1), s);
    }
  }

  /** A cycle can be walked round for ever, so none of its steps ever finishes. */
  lemma {:induction false} CycleNeverDone(steps: seq<Step>, p: seq<int>, r: nat)
    requires DistinctIds(steps) && IsCycle(steps, p)
    ensures p[0] !in DoneAfter(steps, r)
    decreases r
  {
    if p[0] in DoneAfter(steps, r) {
      WalkFinishesEarlier(steps, p, r, |p| - 1);
      CycleNeverDone(steps, p, r - (|p| - 1));
    }
  }

  lemma {:induction false} WalkAppend(steps: seq<Step>, p: seq<int>, b: int)
    requires p != [] && IsWalk(steps, p) && Edge(steps, p[|p| - 1], b)
    ensures IsWalk(steps, p + [b])
  {
    forall i | 0 <= i < |p + [b]| - 1 ensures Edge(steps, (p + [b])[i], (p + [b])[i + 1]) {
      if i < |p| - 1 {
        assert Edge(steps, p[i], p[i + 1]);
      }
    }
  }

  ghost predicate WaitsInside(steps: seq<Step>, ids: set<int>, a: int) {
    exists b :: b in ids && Edge(steps, a, b)
  }

  /** Every ID of the set waits for another one of the set. */
  ghost predicate Blocked(steps: seq<Step>, ids: set<int>) {
    forall a {:trigger WaitsInside(steps, ids, a)} | a in ids :: WaitsInside(steps, ids, a)
  }

  /** Within such a set there are walks of any length. */
  lemma {:induction false} WalkInside(steps: seq<Step>, ids: set<int>, x: int, n: nat) returns (p: seq<int>)
    requires x in ids && Blocked(steps, ids)
    ensures |p| == n + 1 && IsWalk(steps, p) && forall i | 0 <= i < |p| :: p[i] in ids
  {
    if n == 0 {
      p := [x];
    } else {
      var q := WalkInside(steps, ids, x, n - 1);
      var a := q[|q| - 1];
      assert WaitsInside(steps, ids, a);
      var b :| b in ids && Edge(steps, a, b);
      WalkAppend(steps, q, b);
      p := q + [b];
    }
  }

  ghost predicate NoRepeat(p: seq<int>) {
    forall i, j | 0 <= i < j < |p| :: p[i] != p[j]
  }

  lemma {:induction false} Pigeonhole(p: seq<int>, pool: set<int>)
    requires forall i | 0 <= i < |p| :: p[i] in pool
    requires NoRepeat(p)
    ensures |p| <= |pool|
  {
    if p != [] {
      Pigeonhole(p[1..], pool - {p[0]});
    }
  }

  lemma {:induction false} RepeatMakesCycle(steps: seq<Step>, p: seq<int>, i: nat, j: nat)
    requires IsWalk(steps, p) && i < j < |p| && p[i] == p[j]
    ensures Cyclic(steps)
  {
    var c := p[i..j + 1];
    forall k | 0 <= k < |c| - 1 ensures Edge(steps, c[k], c[k + 1]) {
      assert Edge(steps, p[i + k], p[i + k + 1]);
    }
    assert IsCycle(steps, c);
  }

  lemma {:induction false} BlockedSetHasCycle(steps: seq<Step>, ids: set<int>, x: int)
    requires x in ids && Blocked(steps, ids)
    ensures Cyclic(steps)
  {
    var p := WalkInside(steps, ids, x, |ids|);
    if NoRepeat(p) {
      Pigeonhole(p, ids);
    } else {
      var i, j :| 0 <= i < j < |p| && p[i] == p[j];
      RepeatMakesCycle(steps, p, i, j);
    }
  }

  lemma {:induction false} AllDoneNeedsGoodPlan(steps: seq<Step>, r: nat)
    requires DistinctIds(steps) && DoneAfter(steps, r) == Ids(steps)
    ensures !Missing(steps) && !Cyclic(steps)
  {
    if Missing(steps) {
      var s, d :| s in steps && d in s.dependsOn && d !in Ids(steps);
      DoneHadDeps(steps, r, s);
    }
    if Cyclic(steps) {
      var p :| IsCycle(steps, p);
      assert Edge(steps, p[0], p[0 + 1]);
      CycleNeverDone(steps, p, r);
    }
  }

  lemma {:induction false} LeftoverIsBlocked(steps: seq<Step>, done: set<int>)
    requires Started(steps, done) == {} && !Missing(steps)
    ensures Blocked(steps, Ids(steps) - done)
  {
    forall a | a in Ids(steps) - done ensures WaitsInside(steps, Ids(steps) - done, a) {
      var s :| s in steps && s.id == a;
      assert s.id !in Started(steps, done);
      var b :| b in s.dependsOn && b !in done;
      assert Edge(steps, a, b);
    }
  }

  lemma {:induction false} LeftoverHasCycle(steps: seq<Step>, done: set<int>)
    requires Started(steps, done) == {} && !Missing(steps) && done < Ids(steps)
    ensures Cyclic(steps)
  {
    LeftoverIsBlocked(steps, done);
    var x :| x in Ids(steps) && x !in done;
    BlockedSetHasCycle(steps, Ids(steps) - done, x);
  }

  /** When no step is eligible any more, every step has finished exactly if the IDs are
      distinct, no dependency is missing and the dependencies have no cycle. */
  lemma {:induction false} StuckIff(steps: seq<Step>, r: nat)
    requires Started(steps, DoneAfter(steps, r)) == {}
    ensures |DoneAfter(steps, r)| == |steps| <==> DistinctIds(steps) && !Missing(steps) && !Cyclic(steps)
  {
    DoneWithinIds(steps, r);
    IdsCardinality(steps);
    SubsetCardinality(DoneAfter(steps, r), Ids(steps));
    if DistinctIds(steps) {
      if DoneAfter(steps, r) == Ids(steps) {
        AllDoneNeedsGoodPlan(steps, r);
      } else if !Missing(steps) {
        LeftoverHasCycle(steps, DoneAfter(steps, r));
      }
    }
  }

  lemma {:induction false} SubsetCardinality<T>(a: set<T>, b: set<T>)
    requires a <= b
    ensures |a| <= |b| && (|a| == |b| <==> a == b)
  {
    if a != {} {
      var x :| x in a;
      SubsetCardinality(a - {x}, b - {x});
    }
  }

  /** A plan with two steps under one ID never completes: the loop compares the number of
      finished IDs with the number of steps. */
  lemma {:induction false} DuplicateIdsNeverComplete(steps: seq<Step>, r: nat)
    requires !DistinctIds(steps)
    ensures |DoneAfter(steps, r)| < |steps|
  {
    DoneWithinIds(steps, r);
    IdsCardinality(steps);
    SubsetCardinality(DoneAfter(steps, r), Ids(steps));
  }

  // ---- The round of a step is its longest dependency chain ----

  /** c lists steps, each waiting for the one before it, and ends in x. */
  ghost predicate ChainTo(steps: seq<Step>, c: seq<int>, x: int) {
    && |c| > 0 && c[|c| - 1] == x
    && (forall i | 0 <= i < |c| - 1 :: Edge(steps, c[i + 1], c[i]))
  }

  lemma {:induction false} ChainsAreShort(steps: seq<Step>, c: seq<int>, x: int, r: nat)
    requires DistinctIds(steps) && ChainTo(steps, c, x) && x in DoneAfter(steps, r)
    ensures |c| <= r
  {
    var n := |c|;
    if n > 1 {
      assert Edge(steps, c[n - 2 + 1], c[n - 2]);
      var s :| s in steps && s.id == x && c[n - 2] in s.dependsOn;
      DoneHadDeps(steps, r, s);
      ChainsAreShort(steps, c[..n - 1], c[n - 2], r - 1);
    }
  }

  /** A step first eligible in round r > 0 waits for one that started in round r - 1. */
  lemma {:induction false} HeldBackBy(steps: seq<Step>, s: Step, r: nat) returns (t: Step)
    requires r > 0 && StartsIn(steps, s, r)
    ensures StartsIn(steps, t, r - 1) && t.id in s.dependsOn
  {
    var before := DoneAfter(steps, r - 1);
    assert Eligible(s, before) ==> s.id in Started(steps, before);
    var d :| d in s.dependsOn && d !in before;
    t :| t in steps && Eligible(t, before) && t.id == d;
  }

  lemma {:induction false} ChainAppend(steps: seq<Step>, c: seq<int>, t: int, s: int)
    requires ChainTo(steps, c, t) && Edge(steps, s, t)
    ensures ChainTo(steps, c + [s], s)
  {
    var c' := c + [s];
    forall i | 0 <= i < |c'| - 1 ensures Edge(steps, c'[i + 1], c'[i]) {
      if i < |c| - 1 {
        assert Edge(steps, c[i + 1], c[i]);
      }
    }
  }

  lemma {:induction false} ChainOfRound(steps: seq<Step>, s: Step, r: nat) returns (c: seq<int>)
    requires DistinctIds(steps) && StartsIn(steps, s, r)
    ensures ChainTo(steps, c, s.id) && |c| == r + 1
    decreases r
  {
    if r == 0 {
      c := [s.id];
    } else {
      var t := HeldBackBy(steps, s, r);
      var c' := ChainOfRound(steps, t, r - 1);
      assert Edge(steps, s.id, t.id);
      ChainAppend(steps, c', t.id, s.id);
      c := c' + [s.id];
    }
  }

  lemma {:induction false} StartRoundOf(steps: seq<Step>, s: Step, q: nat) returns (r: nat)
    requires DistinctIds(steps) && s in steps && s.id in DoneAfter(steps, q)
    ensures StartsIn(steps, s, r)
  {
    if s.id in DoneAfter(steps, q - 1) {
      r := StartRoundOf(steps, s, q - 1);
    } else {
      var t :| t in steps && Eligible(t, DoneAfter(steps, q - 1)) && t.id == s.id;
      DistinctById(steps, s, t);
      r := q - 1;
    }
  }

  /** x ends a chain of n steps and none longer. */
  ghost predicate LongestChain(steps: seq<Step>, x: int, n: nat) {
    && (exists c :: ChainTo(steps, c, x) && |c| == n)
    && (forall c :: ChainTo(steps, c, x) ==> |c| <= n)
  }

  lemma {:induction false} StartGivesLongestChain(steps: seq<Step>, s: Step, r: nat)
    requires DistinctIds(steps) && StartsIn(steps, s, r)
    ensures LongestChain(steps, s.id, r + 1)
  {
    var c := ChainOfRound(steps, s, r);
    assert s.id in Started(steps, DoneAfter(steps, r));
    forall c | ChainTo(steps, c, s.id) ensures |c| <= r + 1 {
      assert s.id in DoneAfter(steps, r + 1);
      ChainsAreShort(steps, c, s.id, r + 1);
    }
  }

  /** A step that ever finishes starts in round r (counting from 0) exactly if its longest
      dependency chain, itself included, has r + 1 steps. */
  lemma {:induction false} RoundIsLongestChain(steps: seq<Step>, s: Step, r: nat, q: nat)
    requires DistinctIds(steps) && s in steps && s.id in DoneAfter(steps, q)
    ensures StartsIn(steps, s, r) <==> LongestChain(steps, s.id, r + 1)
  {
    var r0 := StartRoundOf(steps, s, q);
    StartGivesLongestChain(steps, s, r0);
    if LongestChain(steps, s.id, r + 1) {
      var c :| ChainTo(steps, c, s.id) && |c| == r + 1;
      var c0 :| ChainTo(steps, c0, s.id) && |c0| == r0 + 1;
    }
    if StartsIn(steps, s, r) {
      StartGivesLongestChain(steps, s, r);
    }
  }
}
