/** Who receives what from the help broker, over every interleaving of its atomic steps
    (internal/hitl/hub.go). */
module HubDelivery {
  import opened Base
  import opened Hub

  // ---- Traces with their states ----

  ghost predicate StepsAt(states: seq<State>, trace: seq<Event>, i: nat)
    requires i < |trace| && |states| == |trace| + 1
  {
    Enabled(states[i], trace[i]) && states[i + 1] == Apply(states[i], trace[i])
  }

  /** The states before, between and after the events of a trace. */
  ghost predicate HistoryFrom(st: State, states: seq<State>, trace: seq<Event>) {
    && |states| == |trace| + 1 && states[0] == st
    && forall i {:trigger StepsAt(states, trace, i)} | 0 <= i < |trace| :: StepsAt(states, trace, i)
  }

  ghost predicate History(states: seq<State>, trace: seq<Event>) {
    HistoryFrom(Init(), states, trace)
  }

  lemma {:induction false} TraceHasStates(st: State, trace: seq<Event>) returns (states: seq<State>)
    requires ValidTrace(st, trace)
    ensures HistoryFrom(st, states, trace) && states[|trace|] == Run(st, trace)
    decreases |trace|
  {
    if trace == [] {
      states := [st];
    } else {
      var rest := TraceHasStates(Apply(st, trace[0]), trace[1..]);
      states := [st] + rest;
      forall i | 0 <= i < |trace| ensures StepsAt(states, trace, i) {
        assert i > 0 ==> StepsAt(rest, trace[1..], i - 1);
      }
    }
  }

  /** Every trace of the broker has its history. */
  lemma {:induction false} EveryTraceHasHistory(trace: seq<Event>) returns (states: seq<State>)
    requires ValidTrace(Init(), trace)
    ensures History(states, trace) && states[|trace|] == Run(Init(), trace)
  {
    states := TraceHasStates(Init(), trace);
  }

  lemma {:induction false} StateInv(states: seq<State>, trace: seq<Event>, n: nat)
    requires History(states, trace) && n <= |trace|
    ensures Inv(states[n])
  {
    if n == 0 {
      InitInv();
    } else {
      StateInv(states, trace, n - 1);
      assert StepsAt(states, trace, n - 1);
      StepInv(states[n - 1], trace[n - 1]);
    }
  }

  // ---- Who is subscribed ----

  /** The subscriptions made by the first n events; the last one's number. */
  function Subscriptions(trace: seq<Event>, n: nat): nat
    requires n <= |trace|
  {
    if n == 0 then 0 else Subscriptions(trace, n - 1) + if trace[n - 1].Subscribe? then 1 else 0
  }

  /** Those that have not been cancelled since. */
  function Active(trace: seq<Event>, n: nat): set<int>
    requires n <= |trace|
  {
    if n == 0 then {}
    else
      match trace[n - 1]
      case Subscribe => Active(trace, n - 1) + {Subscriptions(trace, n)}
      case Unsubscribe(s) => Active(trace, n - 1) - {s}
      case _ => Active(trace, n - 1)
  }

  /** The broker's subscribers are those, and it has a queue for each there ever was. */
  lemma {:induction false} SubscribersAreActive(states: seq<State>, trace: seq<Event>, n: nat)
    requires History(states, trace) && n <= |trace|
    ensures states[n].subscribers == Active(trace, n) && states[n].nextSubId == Subscriptions(trace, n)
    ensures forall s :: s in states[n].queues <==> 0 < s <= Subscriptions(trace, n)
  {
    if n > 0 {
      SubscribersAreActive(states, trace, n - 1);
      assert StepsAt(states, trace, n - 1);
    }
  }

  // ---- What a subscriber is sent and takes ----

  /** The i-th event offers the request to the subscriber. */
  ghost predicate OffersTo(states: seq<State>, trace: seq<Event>, i: nat, t: string, s: int)
    requires i < |trace| && |states| == |trace| + 1
  {
    && trace[i] == Offer(t) && t in states[i].requests
    && states[i].requests[t].phase.Sending? && states[i].requests[t].phase.left != []
    && states[i].requests[t].phase.left[0] == s
  }

  /** The subscriber's queue holds fewer than sixteen requests then. */
  predicate HasRoom(states: seq<State>, i: nat, s: int)
    requires i < |states|
  {
    s in states[i].queues && |states[i].queues[s]| < 16
  }

  /** The requests offered to s by the first n events while its queue had room, in order. */
  ghost function Sent(states: seq<State>, trace: seq<Event>, s: int, n: nat): seq<string>
    requires n <= |trace| && |states| == |trace| + 1
  {
    if n == 0 then []
    else
      var front := Sent(states, trace, s, n - 1);
      if trace[n - 1].Offer? && OffersTo(states, trace, n - 1, trace[n - 1].task, s) && HasRoom(states, n - 1, s) then
        front + [trace[n - 1].task]
      else front
  }

  /** The requests that s has taken from its queue by then, in order. */
  ghost function Taken(states: seq<State>, trace: seq<Event>, s: int, n: nat): seq<string>
    requires n <= |trace| && |states| == |trace| + 1
  {
    if n == 0 then []
    else
      var front := Taken(states, trace, s, n - 1);
      if trace[n - 1] == Consume(s) && s in states[n - 1].queues && states[n - 1].queues[s] != [] then
        front + [states[n - 1].queues[s][0]]
      else front
  }

  function QueueOf(st: State, s: int): seq<string> {
    if s in st.queues then st.queues[s] else []
  }

  /** What one event does to a queue. */
  lemma {:induction false} QueueStep(states: seq<State>, trace: seq<Event>, s: int, i: nat)
    requires History(states, trace) && i < |trace| && (s == states[i].nextSubId + 1 ==> s !in states[i].queues)
    ensures var before, after := QueueOf(states[i], s), QueueOf(states[i + 1], s);
            if trace[i].Offer? && OffersTo(states, trace, i, trace[i].task, s) && HasRoom(states, i, s) then
              after == before + [trace[i].task]
            else if trace[i] == Consume(s) then before != [] && after == before[1..]
            else after == before
  {
    assert StepsAt(states, trace, i);
  }

  /** Each subscriber takes requests in the order they were sent to it, and those it has not
      taken yet are in its queue: nothing that was sent is lost. */
  lemma {:induction false} TakesInOrder(states: seq<State>, trace: seq<Event>, s: int, n: nat)
    requires History(states, trace) && n <= |trace|
    ensures Taken(states, trace, s, n) + QueueOf(states[n], s) == Sent(states, trace, s, n)
  {
    if n > 0 {
      TakesInOrder(states, trace, s, n - 1);
      SubscribersAreActive(states, trace, n - 1);
      QueueStep(states, trace, s, n - 1);
      var queue := QueueOf(states[n - 1], s);
      if trace[n - 1] == Consume(s) {
        assert queue == [queue[0]] + queue[1..];
      }
    }
  }

  // ---- Every request arrives ----

  /** Some event from k up to n offers the request to s. */
  ghost predicate OfferedBetween(states: seq<State>, trace: seq<Event>, k: nat, n: nat, t: string, s: int)
    requires n <= |trace| && |states| == |trace| + 1
  {
    exists i {:trigger OffersTo(states, trace, i, t, s)} | k <= i < n :: OffersTo(states, trace, i, t, s)
  }

  /** Of the subscribers copied at the request's start, those not left have been offered it. */
  ghost predicate Progress(states: seq<State>, trace: seq<Event>, k: nat, n: nat, t: string, subs: seq<int>, m: nat)
    requires n <= |trace| && |states| == |trace| + 1
  {
    && m <= |subs| && t in states[n].requests
    && (match states[n].requests[t].phase
        case Sending(left) => left == subs[m..] && left != []
        case _ => m == |subs|)
    && forall j | 0 <= j < m :: OfferedBetween(states, trace, k, n, t, subs[j])
  }

  lemma {:induction false} NextProgress(states: seq<State>, trace: seq<Event>, k: nat, n: nat, t: string,
                                        subs: seq<int>, m: nat)
    returns (m': nat)
    requires History(states, trace) && k <= n < |trace| && Progress(states, trace, k, n, t, subs, m)
    ensures Progress(states, trace, k, n + 1, t, subs, m')
  {
    assert StepsAt(states, trace, n);
    var st, e := states[n], trace[n];
    forall j | 0 <= j < m ensures OfferedBetween(states, trace, k, n + 1, t, subs[j]) {
      assert OfferedBetween(states, trace, k, n, t, subs[j]);
    }
    if e == Offer(t) {
      m' := m + 1;
      assert st.requests[t].phase.left[1..] == subs[m + 1..];
      assert OffersTo(states, trace, n, t, subs[m]);
      assert OfferedBetween(states, trace, k, n + 1, t, subs[m]);
    } else {
      m' := m;
    }
  }

  lemma {:induction false} ProgressFrom(states: seq<State>, trace: seq<Event>, k: nat, n: nat, t: string,
                                        subs: seq<int>)
    returns (m: nat)
    requires History(states, trace) && k < n <= |trace| && trace[k] == Ask(t, subs)
    ensures Progress(states, trace, k + 1, n, t, subs, m)
    decreases n
  {
    if n == k + 1 {
      assert StepsAt(states, trace, k);
      m := 0;
      assert subs[0..] == subs;
    } else {
      m := ProgressFrom(states, trace, k, n - 1, t, subs);
      m := NextProgress(states, trace, k + 1, n - 1, t, subs, m);
    }
  }

  lemma {:induction false} SentStays(states: seq<State>, trace: seq<Event>, s: int, i: nat, n: nat)
    requires History(states, trace) && i <= n <= |trace|
    ensures Sent(states, trace, s, i) <= Sent(states, trace, s, n)
    decreases n
  {
    if i < n {
      SentStays(states, trace, s, i, n - 1);
    }
  }

  /** The request was offered to s by the i-th event; then its queue was full, or by the end the
      request has been taken or is in the queue. */
  ghost predicate Arrived(states: seq<State>, trace: seq<Event>, i: nat, n: nat, t: string, s: int)
    requires i < n <= |trace| && |states| == |trace| + 1
  {
    && OffersTo(states, trace, i, t, s) && s in states[i].queues
    && (|states[i].queues[s]| >= 16 || t in Taken(states, trace, s, n) || t in QueueOf(states[n], s))
  }

  lemma {:induction false} SentArrives(states: seq<State>, trace: seq<Event>, i: nat, n: nat, t: string, s: int)
    requires History(states, trace) && i < n <= |trace| && OffersTo(states, trace, i, t, s) && HasRoom(states, i, s)
    ensures t in Taken(states, trace, s, n) || t in QueueOf(states[n], s)
  {
    var front := Sent(states, trace, s, i);
    assert Sent(states, trace, s, i + 1) == front + [t];
    SentStays(states, trace, s, i + 1, n);
    TakesInOrder(states, trace, s, n);
    assert Sent(states, trace, s, n)[|front|] == t;
    assert t in Taken(states, trace, s, n) + QueueOf(states[n], s);
  }

  /** Whatever the interleaving: a request that is no longer being sent was offered to everyone
      who was subscribed when it was made; each has taken it or has it in the queue, unless that
      queue held sixteen requests when it was offered. */
  lemma {:induction false} EveryRequestArrives(states: seq<State>, trace: seq<Event>, k: nat, n: nat, t: string,
                                               subs: seq<int>, s: int)
    returns (i: nat)
    requires History(states, trace) && k < n <= |trace| && trace[k] == Ask(t, subs) && s in Active(trace, k)
    requires t in states[n].requests ==> !states[n].requests[t].phase.Sending?
    ensures k < i < n && Arrived(states, trace, i, n, t, s)
  {
    assert StepsAt(states, trace, k);
    SubscribersAreActive(states, trace, k);
    StateInv(states, trace, k);
    assert s in subs;
    var j :| 0 <= j < |subs| && subs[j] == s;
    var m := ProgressFrom(states, trace, k, n, t, subs);
    assert OfferedBetween(states, trace, k + 1, n, t, subs[j]);
    i :| k + 1 <= i < n && OffersTo(states, trace, i, t, s);
    SubscriptionsGrow(trace, k, i);
    SubscribersAreActive(states, trace, i);
    if HasRoom(states, i, s) {
      SentArrives(states, trace, i, n, t, s);
    }
  }

  lemma {:induction false} SubscriptionsGrow(trace: seq<Event>, k: nat, n: nat)
    requires k <= n <= |trace|
    ensures Subscriptions(trace, k) <= Subscriptions(trace, n)
    decreases n
  {
    if k < n {
      SubscriptionsGrow(trace, k, n - 1);
    }
  }

  // ---- No request arrives twice ----

  ghost predicate NoRepeats(s: seq<string>) {
    forall i, j | 0 <= i < j < |s| :: s[i] != s[j]
  }

  /** The request is known, and s is not among those it is still to be offered to. */
  predicate NotLeft(st: State, t: string, s: int) {
    t in st.requests && (st.requests[t].phase.Sending? ==> s !in st.requests[t].phase.left)
  }

  lemma {:induction false} NotLeftStays(st: State, e: Event, t: string, s: int)
    requires Enabled(st, e) && NotLeft(st, t, s)
    ensures NotLeft(Apply(st, e), t, s)
  {
  }

  /** Those left are different ones. */
  ghost predicate LeftOnce(st: State, t: string) {
    t in st.requests && st.requests[t].phase.Sending? ==>
      forall i, j | 0 <= i < j < |st.requests[t].phase.left| ::
        st.requests[t].phase.left[i] != st.requests[t].phase.left[j]
  }

  lemma {:induction false} LeftStaysOnce(states: seq<State>, trace: seq<Event>, n: nat, t: string)
    requires History(states, trace) && n <= |trace|
    ensures LeftOnce(states[n], t)
  {
    if n > 0 {
      LeftStaysOnce(states, trace, n - 1, t);
      assert StepsAt(states, trace, n - 1);
      NextLeft(states[n - 1], trace[n - 1], t);
    }
  }

  lemma {:induction false} NextLeft(st: State, e: Event, t: string)
    requires Enabled(st, e) && LeftOnce(st, t)
    ensures LeftOnce(Apply(st, e), t)
  {
  }

  lemma {:induction false} OfferedIsNotLeft(st: State, t: string)
    requires Enabled(st, Offer(t)) && LeftOnce(st, t)
    ensures NotLeft(Apply(st, Offer(t)), t, st.requests[t].phase.left[0])
  {
  }

  /** Every subscriber is sent each request at most once. */
  lemma {:induction false} SentAtMostOnce(states: seq<State>, trace: seq<Event>, s: int, n: nat)
    requires History(states, trace) && n <= |trace|
    ensures NoRepeats(Sent(states, trace, s, n))
    ensures forall t | t in Sent(states, trace, s, n) :: NotLeft(states[n], t, s)
  {
    if n > 0 {
      var front, e := Sent(states, trace, s, n - 1), trace[n - 1];
      SentAtMostOnce(states, trace, s, n - 1);
      assert StepsAt(states, trace, n - 1);
      forall t | t in front ensures NotLeft(states[n], t, s) {
        NotLeftStays(states[n - 1], e, t, s);
      }
      if e.Offer? && OffersTo(states, trace, n - 1, e.task, s) {
        LeftStaysOnce(states, trace, n - 1, e.task);
        OfferedIsNotLeft(states[n - 1], e.task);
        assert states[n - 1].requests[e.task].phase.left[0] == s;
        assert !NotLeft(states[n - 1], e.task, s) && e.task !in front;
      }
    }
  }

  // ---- What a request returns ----

  /** Some event from k up to n is this one. */
  ghost predicate Happens(trace: seq<Event>, k: nat, n: nat, e: Event)
    requires n <= |trace|
  {
    exists i | k <= i < n :: trace[i] == e
  }

  /** Some event from k up to n takes this hint from the request's channel. */
  ghost predicate TakesHint(states: seq<State>, trace: seq<Event>, i: nat, t: string, h: string)
    requires i < |trace| && |states| == |trace| + 1
  {
    trace[i] == TakeHint(t) && t in states[i].requests && states[i].requests[t].chan != [] &&
    states[i].requests[t].chan[0] == h
  }

  ghost predicate HintTaken(states: seq<State>, trace: seq<Event>, k: nat, n: nat, t: string, h: string)
    requires n <= |trace| && |states| == |trace| + 1
  {
    exists i {:trigger TakesHint(states, trace, i, t, h)} | k <= i < n :: TakesHint(states, trace, i, t, h)
  }

  /** A request has returned no subscriber, no hint, or a hint, or nothing yet, for the reason
      that the trace since its start shows. */
  ghost predicate Accounts(states: seq<State>, trace: seq<Event>, k: nat, n: nat, t: string, subs: seq<int>)
    requires n <= |trace| && |states| == |trace| + 1
  {
    && t in states[n].requests
    && var reply := ReplyOf(states[n].requests[t].phase);
    && (reply == Some(NoSubscriber) <==> subs == [])
    && (reply == Some(NoHint) <==> Happens(trace, k, n, GiveUp(t)))
    && (forall h :: reply == Some(Hint(h)) <==> HintTaken(states, trace, k, n, t, h))
  }

  lemma {:induction false} NextHappens(trace: seq<Event>, k: nat, n: nat, e: Event)
    requires k <= n < |trace|
    ensures Happens(trace, k, n + 1, e) <==> Happens(trace, k, n, e) || trace[n] == e
  {
  }

  lemma {:induction false} NextTaken(states: seq<State>, trace: seq<Event>, k: nat, n: nat, t: string, h: string)
    requires k <= n < |trace| && |states| == |trace| + 1
    ensures HintTaken(states, trace, k, n + 1, t, h) <==>
            HintTaken(states, trace, k, n, t, h) || TakesHint(states, trace, n, t, h)
  {
  }

  lemma {:induction false} NextAccounts(states: seq<State>, trace: seq<Event>, k: nat, n: nat, t: string,
                                        subs: seq<int>)
    requires History(states, trace) && k <= n < |trace| && Accounts(states, trace, k, n, t, subs)
    ensures Accounts(states, trace, k, n + 1, t, subs)
  {
    assert StepsAt(states, trace, n);
    NextHappens(trace, k, n, GiveUp(t));
    forall h ensures ReplyOf(states[n + 1].requests[t].phase) == Some(Hint(h)) <==>
                     HintTaken(states, trace, k, n + 1, t, h) {
      NextTaken(states, trace, k, n, t, h);
    }
  }

  /** Every request: it returns that there is no subscriber exactly if nobody was subscribed when
      it was made, that there is no hint exactly if it gave up, and a hint exactly if it took
      that one from its channel. */
  lemma {:induction false} RepliesMean(states: seq<State>, trace: seq<Event>, k: nat, n: nat, t: string,
                                       subs: seq<int>)
    requires History(states, trace) && k < n <= |trace| && trace[k] == Ask(t, subs)
    ensures Accounts(states, trace, k + 1, n, t, subs) && (subs == [] <==> Active(trace, k) == {})
    decreases n
  {
    assert StepsAt(states, trace, k);
    SubscribersAreActive(states, trace, k);
    if n == k + 1 {
      if subs != [] {
        assert subs[0] in subs;
      }
    } else {
      RepliesMean(states, trace, k, n - 1, t, subs);
      NextAccounts(states, trace, k + 1, n - 1, t, subs);
    }
  }

  // ---- Which deliveries succeed ----

  /** The look-up makes a delivery exactly while the request's call has not finished. */
  ghost predicate FindsWaiter(before: State, after: State, t: string, h: string) {
    after.deliveries ==
    if t in before.requests && !before.requests[t].phase.Finished? then
      before.deliveries[before.nextDelivery := Delivery(t, h)]
    else before.deliveries
  }

  /** The hint is accepted exactly if every hint accepted so far has been taken. */
  ghost predicate AcceptsIfTaken(before: State, after: State, d: int) {
    && d in before.deliveries
    && var Delivery(t, h) := before.deliveries[d];
    && t in before.requests && t in after.requests
    && after.requests[t].accepted ==
       before.requests[t].accepted +
         if before.requests[t].accepted == Received(before.requests[t].phase) then [h] else []
  }

  /** In every trace a delivery goes on exactly if its request's call has not finished, and then
      succeeds exactly if no accepted hint sits unread. */
  lemma {:induction false} DeliveriesSucceedIff(states: seq<State>, trace: seq<Event>, i: nat)
    requires History(states, trace) && i < |trace|
    ensures trace[i].LookUp? ==> FindsWaiter(states[i], states[i + 1], trace[i].task, trace[i].hint)
    ensures trace[i].Send? ==> AcceptsIfTaken(states[i], states[i + 1], trace[i].delivery)
  {
    assert StepsAt(states, trace, i);
    StateInv(states, trace, i);
    if trace[i].Send? {
      var t := states[i].deliveries[trace[i].delivery].task;
      assert RequestInv(states[i].requests[t]);
    }
  }
}
