/** The bounded in-memory store (pkg/memory.go). An ID stands for its number; now is the time
    one call reads, the same throughout the call. */
module Memory {
  import opened Base

  datatype Entry = Entry(id: int, content: string, memType: int, createdAt: int, ttl: int, relevance: real)

  // ---- In-place exchange sort ----

  /** s[k] has no larger key than what stands between it and n. */
  ghost predicate LeastUpTo<T(!new)>(s: seq<T>, key: T -> real, k: nat, n: nat)
    requires k < |s| && n <= |s|
  {
    forall l | k < l < n :: key(s[k]) <= key(s[l])
  }

  ghost predicate SortedUpTo<T(!new)>(s: seq<T>, key: T -> real, i: nat)
    requires i <= |s|
  {
    forall k {:trigger LeastUpTo(s, key, k, |s|)} | 0 <= k < i :: LeastUpTo(s, key, k, |s|)
  }

  ghost predicate Sorted<T(!new)>(s: seq<T>, key: T -> real) {
    SortedUpTo(s, key, |s|)
  }

  function Swap<T>(s: seq<T>, i: nat, j: nat): seq<T>
    requires i < |s| && j < |s|
  {
    s[i := s[j]][j := s[i]]
  }

  lemma {:induction false} SwapSame<T(!new)>(s: seq<T>, key: T -> real, i: nat, j: nat)
    requires i < j < |s| && SortedUpTo(s, key, i) && LeastUpTo(s, key, i, j) && key(s[j]) < key(s[i])
    ensures multiset(Swap(s, i, j)) == multiset(s) && SortedUpTo(Swap(s, i, j), key, i) &&
            LeastUpTo(Swap(s, i, j), key, i, j + 1)
  {
    var t := Swap(s, i, j);
    forall k | 0 <= k < i ensures LeastUpTo(t, key, k, |t|) {
      assert LeastUpTo(s, key, k, |s|);
    }
  }

  /** The nested loops of sortByRelevance and sortByCreatedAt: smaller keys first. */
  method ExchangeSort<T(!new)>(a: array<T>, key: T -> real)
    modifies a
    ensures Sorted(a[..], key) && multiset(a[..]) == multiset(old(a[..]))
  {
    for i := 0 to a.Length
      invariant multiset(a[..]) == multiset(old(a[..]))
      invariant SortedUpTo(a[..], key, i)
    {
      for j := i + 1 to a.Length
        invariant multiset(a[..]) == multiset(old(a[..]))
        invariant SortedUpTo(a[..], key, i) && LeastUpTo(a[..], key, i, j)
      {
        ghost var s := a[..];
        if key(a[j]) < key(a[i]) {
          SwapSame(s, key, i, j);
          a[i], a[j] := a[j], a[i];
          assert a[..] == Swap(s, i, j);
        }
      }
      assert LeastUpTo(a[..], key, i, |a[..]|);
    }
  }

  function ByRelevance(e: Entry): real {
    -e.relevance
  }

  function ByAge(e: Entry): real {
    e.createdAt as real
  }

  /** sortByRelevance: descending scores. */
  method SortByRelevance(a: array<Entry>)
    modifies a
    ensures Sorted(a[..], ByRelevance) && multiset(a[..]) == multiset(old(a[..]))
  {
    ExchangeSort(a, ByRelevance);
  }

  /** sortByCreatedAt: oldest first. */
  method SortByCreatedAt(a: array<Entry>)
    modifies a
    ensures Sorted(a[..], ByAge) && multiset(a[..]) == multiset(old(a[..]))
  {
    ExchangeSort(a, ByAge);
  }

  // ---- Lists of distinct entries ----

  ghost predicate DistinctIds(s: seq<Entry>) {
    forall i, j | 0 <= i < j < |s| :: s[i].id != s[j].id
  }

  lemma {:induction false} CountOnce(s: seq<Entry>, e: Entry)
    requires DistinctIds(s)
    ensures multiset(s)[e] <= 1
  {
    if s != [] {
      var front, last := s[..|s| - 1], s[|s| - 1];
      CountOnce(front, e);
      assert s == front + [last];
      assert last == e ==> e !in front;
    }
  }

  lemma {:induction false} CountTwice(s: seq<Entry>, i: nat, j: nat)
    requires i < j < |s| && s[i] == s[j]
    ensures multiset(s)[s[i]] >= 2
  {
    assert s == s[..j] + s[j..];
    assert s[..j][i] == s[i] && s[j..][0] == s[j];
    assert s[i] in multiset(s[..j]) && s[i] in multiset(s[j..]);
  }

  /** A rearrangement has the same entries, each once. */
  lemma {:induction false} Rearranged(s: seq<Entry>, t: seq<Entry>)
    requires DistinctIds(s) && multiset(s) == multiset(t)
    ensures DistinctIds(t) && |t| == |s| && forall e :: e in t <==> e in s
  {
    assert |multiset(s)| == |s| && |multiset(t)| == |t|;
    forall e ensures e in t <==> e in s {
      assert e in t <==> e in multiset(t);
      assert e in s <==> e in multiset(s);
    }
    forall i, j | 0 <= i < j < |t| ensures t[i].id != t[j].id {
      if t[i].id == t[j].id {
        assert t[i] in s && t[j] in s;
        CountTwice(t, i, j);
        CountOnce(s, t[i]);
      }
    }
  }

  // ---- The store ----

  predicate Expired(e: Entry, now: int) {
    e.ttl != 0 && now - e.createdAt > e.ttl
  }

  /** The entry has no time to live, or that is not over yet. */
  predicate IsAlive(e: Entry, now: int) {
    e.ttl == 0 || now <= e.createdAt + e.ttl
  }

  function Cost(e: Entry): nat {
    |e.content| / 4
  }

  ghost function Pick<T(!new)>(s: set<T>): (x: T)
    requires s != {}
    ensures x in s
  {
    var x :| x in s;
    x
  }

  ghost function Tokens(entries: map<int, Entry>): nat
    decreases |entries|
  {
    if entries.Keys == {} then 0
    else
      var id := Pick(entries.Keys);
      Cost(entries[id]) + Tokens(entries - {id})
  }

  lemma {:induction false} TokensWithout(entries: map<int, Entry>, id: int)
    requires id in entries
    ensures Tokens(entries) == |entries[id].content| / 4 + Tokens(entries - {id})
    decreases |entries|
  {
    var first := Pick(entries.Keys);
    if first != id {
      var a, b := entries - {first}, entries - {id};
      assert a - {id} == b - {first} && a[id] == entries[id] && b[first] == entries[first];
      TokensWithout(a, id);
      TokensWithout(b, first);
      assert Tokens(entries) == Cost(entries[first]) + Tokens(a);
    }
  }

  function Members(ids: seq<int>): set<int> {
    set id | id in ids
  }

  function Ids(s: seq<Entry>): set<int> {
    set e | e in s :: e.id
  }

  /** Each entry of the map once, oldest first. */
  ghost predicate OldestFirst(list: seq<Entry>, entries: map<int, Entry>) {
    DistinctIds(list) && Sorted(list, ByAge) && Ids(list) == entries.Keys && forall e | e in list ::
      e.id in entries && e == entries[e.id]
  }

  function Live(entries: map<int, Entry>, now: int): map<int, Entry> {
    map id | id in entries && IsAlive(entries[id], now) :: entries[id]
  }

  lemma {:induction false} LiveIs(entries: map<int, Entry>, ids: seq<int>, now: int)
    requires forall id | id in entries :: id in ids
    ensures Live(entries, now) ==
            map id | id in entries && !(id in ids && Expired(entries[id], now)) :: entries[id]
  {
    forall id | id in entries ensures IsAlive(entries[id], now) <==> !(id in ids && Expired(entries[id], now)) {
      assert id in ids;
    }
  }

  /** What remains of the live entries: all of them if they fit, and otherwise all but the
      shortest run of oldest entries without which the rest fits. */
  ghost predicate CompactedTo(live: map<int, Entry>, maxTokens: int, byAge: seq<Entry>, removed: nat,
                              after: map<int, Entry>) {
    if Tokens(live) <= maxTokens then after == live
    else
      && OldestFirst(byAge, live) && removed <= |byAge|
      && after == Without(live, byAge, removed)
      && (Tokens(after) <= maxTokens || after == map[])
      && (removed > 0 ==> Tokens(Without(live, byAge, removed - 1)) > maxTokens)
  }

  /** A limit that is not negative is always met. */
  lemma {:induction false} LimitIsMet(live: map<int, Entry>, maxTokens: nat, byAge: seq<Entry>, removed: nat,
                                      after: map<int, Entry>)
    requires CompactedTo(live, maxTokens, byAge, removed, after)
    ensures Tokens(after) <= maxTokens
  {
    assert after == map[] ==> Tokens(after) == 0;
  }

  /** No entry that remains is older than one that was removed for space. */
  lemma {:induction false} OldestGo(live: map<int, Entry>, maxTokens: int, byAge: seq<Entry>, removed: nat,
                                    after: map<int, Entry>, gone: int, stays: int)
    requires CompactedTo(live, maxTokens, byAge, removed, after) && gone in live && gone !in after && stays in after
    ensures stays in live && live[gone].createdAt <= live[stays].createdAt
  {
    var young := Ids(byAge[..removed]);
    assert gone in young && stays in Ids(byAge) && stays !in young;
    var e :| e in byAge[..removed] && e.id == gone;
    var i :| 0 <= i < removed && byAge[..removed][i] == e;
    var f :| f in byAge && f.id == stays;
    var j :| 0 <= j < |byAge| && byAge[j] == f;
    assert LeastUpTo(byAge, ByAge, i, |byAge|);
  }

  /** An entry as Recall reports it, and whether it is reported at all. */
  function Scored(e: Entry, score: string -> real): Entry {
    e.(relevance := score(e.content))
  }

  predicate Matches(e: Entry, score: string -> real, memType: int, now: int) {
    IsAlive(e, now) && (memType == 0 || e.memType == memType) && score(e.content) > 0.0
  }

  /** Each match among some of the entries once, with its score. */
  ghost predicate Hits(list: seq<Entry>, entries: map<int, Entry>, ids: set<int>, score: string -> real, memType: int,
                       now: int) {
    && DistinctIds(list)
    && (forall e | e in list ::
         && e.id in ids && e.id in entries && Matches(entries[e.id], score, memType, now)
         && e == Scored(entries[e.id], score))
    && forall id | id in ids && id in entries && Matches(entries[id], score, memType, now) ::
       Scored(entries[id], score) in list
  }

  lemma {:induction false} HitsNext(list: seq<Entry>, entries: map<int, Entry>, ids: set<int>, id: int,
                                    score: string -> real, memType: int, now: int)
    requires Hits(list, entries, ids, score, memType, now) && id !in ids && id in entries && entries[id].id == id
    ensures Hits(if Matches(entries[id], score, memType, now) then list + [Scored(entries[id], score)]
            else list, entries, ids + {id}, score, memType, now)
  {
  }

  /** The list of a map's entries in the order of ids. */
  lemma {:induction false} ListsEntries(list: seq<Entry>, entries: map<int, Entry>, ids: seq<int>)
    requires ListsOnce(ids, entries.Keys) && (forall id | id in entries :: entries[id].id == id)
    requires |list| == |ids| && forall k | 0 <= k < |ids| :: ids[k] in entries && list[k] == entries[ids[k]]
    ensures DistinctIds(list) && Ids(list) == entries.Keys && forall e | e in list ::
            e.id in entries && e == entries[e.id]
  {
    forall i, j | 0 <= i < j < |list| ensures list[i].id != list[j].id {
      assert list[i].id == ids[i] && list[j].id == ids[j];
    }
    forall id | id in entries ensures id in Ids(list) {
      var k :| 0 <= k < |ids| && ids[k] == id;
      assert list[k] in list && list[k].id == id;
    }
  }

  /** The entries without the first n of a list. */
  function Without(live: map<int, Entry>, byAge: seq<Entry>, n: nat): map<int, Entry>
    requires n <= |byAge|
  {
    live - Ids(byAge[..n])
  }

  /** Removing the next oldest entry. */
  lemma {:induction false} RemoveNext(live: map<int, Entry>, byAge: seq<Entry>, i: nat)
    requires OldestFirst(byAge, live) && i < |byAge|
    ensures var e, entries := byAge[i], Without(live, byAge, i);
            && e.id in entries && entries[e.id] == e
            && entries - {e.id} == Without(live, byAge, i + 1)
            && Tokens(entries) == Cost(e) + Tokens(entries - {e.id})
  {
    var e, entries := byAge[i], Without(live, byAge, i);
    assert byAge[..i + 1] == byAge[..i] + [e];
    assert e in byAge;
    assert e.id !in Ids(byAge[..i]) by {
      forall f | f in byAge[..i] ensures f.id != e.id {
        var k :| 0 <= k < i && byAge[k] == f;
      }
    }
    assert Ids(byAge[..i + 1]) == Ids(byAge[..i]) + {e.id};
    TokensWithout(entries, e.id);
  }

  lemma {:induction false} NoneOrAllRemoved(live: map<int, Entry>, byAge: seq<Entry>)
    requires OldestFirst(byAge, live)
    ensures Without(live, byAge, 0) == live && Without(live, byAge, |byAge|) == map[]
  {
    assert byAge[..|byAge|] == byAge;
  }

  /** The entries that a pass over ids has not reached after i of them. */
  function Left(entries: map<int, Entry>, ids: seq<int>, i: nat): map<int, Entry>
    requires i <= |ids|
  {
    entries - Members(ids[..i])
  }

  lemma {:induction false} CountNext(entries: map<int, Entry>, ids: seq<int>, i: nat)
    requires ListsOnce(ids, entries.Keys) && i < |ids|
    ensures ids[i] in entries && Tokens(Left(entries, ids, i)) == Cost(entries[ids[i]]) +
            Tokens(Left(entries, ids, i + 1))
  {
    assert ids[i] !in ids[..i] && ids[..i + 1] == ids[..i] + [ids[i]];
    TokensWithout(Left(entries, ids, i), ids[i]);
    assert Left(entries, ids, i) - {ids[i]} == Left(entries, ids, i + 1);
  }

  lemma {:induction false} NoneOrAllLeft(entries: map<int, Entry>, ids: seq<int>)
    requires ListsOnce(ids, entries.Keys)
    ensures Left(entries, ids, 0) == entries && Left(entries, ids, |ids|) == map[]
  {
    assert ids[..|ids|] == ids;
  }

  class InMemoryStore {
    var entries: map<int, Entry>
    var nextId: int

    ghost predicate Valid()
      reads this
    {
      forall id | id in entries :: entries[id].id == id && id < nextId
    }

    constructor ()
      ensures Valid() && entries == map[]
    {
      entries, nextId := map[], 1;
    }

    method Store(content: string, memType: int, now: int) returns (id: int)
      requires Valid()
      modifies this
      ensures Valid() && id !in old(entries) && entries == old(entries)[id := Entry(id, content, memType, now, 0, 0.0)]
    {
      id := nextId;
      nextId := nextId + 1;
      entries := entries[id := Entry(id, content, memType, now, 0, 0.0)];
    }

    method Delete(id: int) returns (found: bool)
      requires Valid()
      modifies `entries
      ensures Valid() && found == (id in old(entries)) && entries == old(entries) - {id}
    {
      found := id in entries;
      if found {
        entries := entries - {id};
      }
    }

    /** The matches with the highest scores: no more than limit if that is positive, in
        descending order, and none that is left out scores higher than one that is not. */
    method Recall(score: string -> real, limit: int, memType: int, now: int) returns (results: seq<Entry>)
      requires Valid()
      ensures DistinctIds(results) && (limit > 0 ==> |results| <= limit)
      ensures forall e | e in results ::
                && e.id in entries && Matches(entries[e.id], score, memType, now)
                && e == entries[e.id].(relevance := score(entries[e.id].content))
      ensures forall i, j | 0 <= i < j < |results| :: results[i].relevance >= results[j].relevance
      ensures forall id | id in entries && Matches(entries[id], score, memType, now) &&
              Scored(entries[id], score) !in results ::
        limit > 0 && |results| == limit && forall e | e in results :: score(entries[id].content) <= e.relevance
    {
      var ids := ListKeys(entries.Keys);
      var list: seq<Entry> := [];
      for i := 0 to |ids|
        invariant Hits(list, entries, Members(ids[..i]), score, memType, now)
      {
        var entry := entries[ids[i]];
        assert ids[i] !in ids[..i] && ids[..i + 1] == ids[..i] + [ids[i]];
        ghost var done, done' := Members(ids[..i]), Members(ids[..i + 1]);
        assert done' == done + {ids[i]};
        HitsNext(list, entries, done, ids[i], score, memType, now);
        if !Expired(entry, now) && (memType == 0 || entry.memType == memType) && score(entry.content) > 0.0 {
          list := list + [Scored(entry, score)];
        }
      }
      assert ids[..|ids|] == ids;
      var sorted := new Entry[|list|](i requires 0 <= i < |list| => list[i]);
      assert sorted[..] == list;
      SortByRelevance(sorted);
      results := sorted[..];
      Rearranged(list, results);
      ghost var all := results;
      forall i, j | 0 <= i < j < |all| ensures all[i].relevance >= all[j].relevance {
        assert LeastUpTo(all, ByRelevance, i, |all|);
      }
      if limit > 0 && |results| > limit {
        results := results[..limit];
      }
      forall e | e in all && e !in results ensures limit > 0 && |results| == limit && forall r | r in results ::
        e.relevance <= r.relevance {
        var j :| 0 <= j < |all| && all[j] == e;
      }
    }

    /** Removes the expired entries, in whatever order the map is iterated. */
    method RemoveExpired(now: int)
      requires Valid()
      modifies `entries
      ensures Valid() && entries == Live(old(entries), now)
    {
      var ids := ListKeys(entries.Keys);
      for i := 0 to |ids|
        invariant entries == map id | id in old(entries) && !(id in ids[..i] && Expired(old(entries)[id], now)) ::
                  old(entries)[id]
      {
        assert ids[i] !in ids[..i] && ids[..i + 1] == ids[..i] + [ids[i]];
        if Expired(entries[ids[i]], now) {
          entries := entries - {ids[i]};
        }
      }
      assert ids[..|ids|] == ids;
      LiveIs(old(entries), ids, now);
    }

    method CountTokens() returns (tokens: nat)
      ensures tokens == Tokens(entries)
    {
      tokens := 0;
      var ids := ListKeys(entries.Keys);
      NoneOrAllLeft(entries, ids);
      for i := 0 to |ids|
        invariant Tokens(entries) == tokens + Tokens(Left(entries, ids, i))
      {
        CountNext(entries, ids, i);
        tokens := tokens + |entries[ids[i]].content| / 4;
      }
    }

    method ListByAge() returns (byAge: array<Entry>)
      requires Valid()
      ensures fresh(byAge) && OldestFirst(byAge[..], entries)
    {
      var ids := ListKeys(entries.Keys);
      var list: seq<Entry> := [];
      for i := 0 to |ids|
        invariant |list| == i && forall k | 0 <= k < i :: list[k] == entries[ids[k]]
      {
        list := list + [entries[ids[i]]];
      }
      ListsEntries(list, entries, ids);
      byAge := new Entry[|list|](i requires 0 <= i < |list| => list[i]);
      assert byAge[..] == list;
      SortByCreatedAt(byAge);
      Rearranged(list, byAge[..]);
    }

    /** Removes entries in the order of a list until the rest fits. */
    method RemoveInOrder(byAge: seq<Entry>, maxTokens: int, tokens: int) returns (ghost removed: nat)
      requires Valid() && OldestFirst(byAge, entries) && tokens == Tokens(entries) && tokens > maxTokens
      modifies `entries
      ensures Valid() && removed <= |byAge| && entries == Without(old(entries), byAge, removed)
      ensures Tokens(entries) <= maxTokens || removed == |byAge|
      ensures removed > 0 ==> Tokens(Without(old(entries), byAge, removed - 1)) > maxTokens
    {
      var currentTokens := tokens;
      removed := 0;
      NoneOrAllRemoved(entries, byAge);
      for i := 0 to |byAge|
        invariant removed == i && entries == Without(old(entries), byAge, i) && currentTokens == Tokens(entries)
        invariant i > 0 ==> Tokens(Without(old(entries), byAge, i - 1)) > maxTokens
      {
        if currentTokens <= maxTokens {
          break;
        }
        RemoveNext(old(entries), byAge, i);
        entries := entries - {byAge[i].id};
        currentTokens := currentTokens - |byAge[i].content| / 4;
        removed := i + 1;
      }
    }

    method Compact(maxTokens: int, now: int) returns (ghost byAge: seq<Entry>, ghost removed: nat)
      requires Valid()
      modifies `entries
      ensures Valid() && CompactedTo(Live(old(entries), now), maxTokens, byAge, removed, entries)
    {
      RemoveExpired(now);
      byAge, removed := [], 0;
      var currentTokens := CountTokens();
      if currentTokens <= maxTokens {
        return;
      }
      var sorted := ListByAge();
      byAge := sorted[..];
      NoneOrAllRemoved(entries, byAge);
      removed := RemoveInOrder(sorted[..], maxTokens, currentTokens);
    }
  }
}
