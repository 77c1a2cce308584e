/** The broker between agents asking for help and the operators answering them, as atomic
    steps of concurrent calls (internal/hitl/hub.go). */
module Hub {
  import opened Base

  const QUEUE_CAP := 16

  datatype Reply = Hint(text: string) | NoHint | NoSubscriber

  /** Where the call of RequestHelp for one task is. */
  datatype Phase =
    | Sending(left: seq<int>)    // registered, still offering the request to these subscribers
    | Waiting                    // blocked on the hint channel and the timeout
    | Leaving(reply: Reply)      // has its reply, waiter not yet deleted
    | Finished(reply: Reply)     // waiter deleted, call returned

  /** One request. chan is the buffer of its hint channel; submitted holds the hints of
      deliveries that found its waiter, accepted those whose delivery returned true, in order. */
  datatype Request = Request(phase: Phase, chan: seq<string>, submitted: set<string>, accepted: seq<string>)

  /** A DeliverHint call between its lookup and its send. */
  datatype Delivery = Delivery(task: string, hint: string)

  datatype State = State(
    requests: map<string, Request>, waiters: set<string>,
    subscribers: set<int>, queues: map<int, seq<string>>, nextSubId: int,
    deliveries: map<int, Delivery>, nextDelivery: int)

  datatype Event =
    | Ask(task: string, subs: seq<int>)       // RequestHelp: register the waiter, copy the subscribers
    | Offer(task: string)                     // non-blocking send to the next subscriber
    | TakeHint(task: string)                  // the select receives a hint
    | GiveUp(task: string)                    // the select sees the timeout or the cancelled context
    | Forget(task: string)                    // the deferred delete of the waiter
    | LookUp(task: string, hint: string)      // DeliverHint: find the waiter's channel
    | Send(delivery: int)                     // DeliverHint: non-blocking send
    | Subscribe
    | Unsubscribe(sub: int)
    | Consume(sub: int)                       // an operator stream receives a request

  function Init(): State {
    State(map[], {}, {}, map[], 0, map[], 0)
  }

  /** Task IDs are distinct: Ask needs one never used before. */
  ghost predicate Enabled(st: State, e: Event) {
    match e
    case Ask(t, subs) => t !in st.requests && ListsOnce(subs, st.subscribers)
    case Offer(t) => t in st.requests && st.requests[t].phase.Sending? && st.requests[t].phase.left != []
    case TakeHint(t) => t in st.requests && st.requests[t].phase == Waiting && st.requests[t].chan != []
    case GiveUp(t) => t in st.requests && st.requests[t].phase == Waiting
    case Forget(t) => t in st.requests && st.requests[t].phase.Leaving?
    case LookUp(_, _) => true
    case Send(d) => d in st.deliveries && st.deliveries[d].task in st.requests
    case Subscribe => true
    case Unsubscribe(_) => true
    case Consume(s) => s in st.queues && st.queues[s] != []
  }

  function SetRequest(st: State, t: string, r: Request): State {
    st.(requests := st.requests[t := r])
  }

  ghost function Apply(st: State, e: Event): State
    requires Enabled(st, e)
  {
    match e
    case Ask(t, subs) =>
      SetRequest(st, t, Request(if subs == [] then Leaving(NoSubscriber) else Sending(subs), [], {}, [])).(
        waiters := st.waiters + {t})
    case Offer(t) =>
      var left := st.requests[t].phase.left;
      var s := left[0];
      var st' := SetRequest(st, t, st.requests[t].(phase := if |left| == 1 then Waiting else Sending(left[1..])));
      if s in st.queues && |st.queues[s]| < QUEUE_CAP then st'.(queues := st.queues[s := st.queues[s] + [t]]) else st'
    case TakeHint(t) =>
      var r := st.requests[t];
      SetRequest(st, t, r.(phase := Leaving(Hint(r.chan[0])), chan := r.chan[1..]))
    case GiveUp(t) => SetRequest(st, t, st.requests[t].(phase := Leaving(NoHint)))
    case Forget(t) =>
      SetRequest(st, t, st.requests[t].(phase := Finished(st.requests[t].phase.reply))).(waiters := st.waiters - {t})
    case LookUp(t, h) =>
      if t in st.waiters && t in st.requests then
        SetRequest(st, t, st.requests[t].(submitted := st.requests[t].submitted + {h})).(
          deliveries := st.deliveries[st.nextDelivery := Delivery(t, h)], nextDelivery := st.nextDelivery + 1)
      else st
    case Send(d) =>
      var Delivery(t, h) := st.deliveries[d];
      var r := st.requests[t];
      var st' := st.(deliveries := st.deliveries - {d});
      if r.chan == [] then SetRequest(st', t, r.(chan := [h], accepted := r.accepted + [h])) else st'
    case Subscribe =>
      st.(nextSubId := st.nextSubId + 1, subscribers := st.subscribers + {st.nextSubId + 1},
          queues := st.queues[st.nextSubId + 1 := []])
    case Unsubscribe(s) => st.(subscribers := st.subscribers - {s})
    case Consume(s) => st.(queues := st.queues[s := st.queues[s][1..]])
  }

  // ---- What every interleaving keeps ----

  function ReplyOf(p: Phase): Option<Reply> {
    match p case Leaving(r) => Some(r) case Finished(r) => Some(r) case _ => None
  }

  /** The hints the call has received: its reply, if that is a hint. */
  function Received(p: Phase): seq<string> {
    match ReplyOf(p) case Some(Hint(h)) => [h] case _ => []
  }

  /** Every accepted hint was received or still sits, unread, in the channel. */
  ghost predicate RequestInv(r: Request) {
    && r.accepted == Received(r.phase) + r.chan && |r.chan| <= 1
    && (forall h | h in r.accepted :: h in r.submitted)
    && (r.phase.Sending? ==> r.phase.left != [])
  }

  ghost predicate QueueInv(st: State, s: int)
    requires s in st.queues
  {
    |st.queues[s]| <= QUEUE_CAP && forall t | t in st.queues[s] :: t in st.requests
  }

  ghost predicate DeliveryInv(st: State, d: int)
    requires d in st.deliveries
  {
    var t := st.deliveries[d].task;
    t in st.requests && st.deliveries[d].hint in st.requests[t].submitted
  }

  ghost predicate Inv(st: State) {
    && (forall t | t in st.requests :: RequestInv(st.requests[t]))
    && (forall t :: t in st.waiters <==> t in st.requests && !st.requests[t].phase.Finished?)
    && (forall s | s in st.queues :: QueueInv(st, s))
    && (forall d | d in st.deliveries :: DeliveryInv(st, d))
    && (forall s | s in st.subscribers :: s in st.queues)
  }

  lemma {:induction false} InitInv()
    ensures Inv(Init())
  {
  }

  /** Changing one request, without taking submitted hints away, keeps the rest in order. */
  lemma {:induction false} UpdateInv(st: State, t: string, r: Request)
    requires Inv(st) && t in st.requests && RequestInv(r)
    requires st.requests[t].submitted <= r.submitted && (r.phase.Finished? <==> st.requests[t].phase.Finished?)
    ensures Inv(SetRequest(st, t, r))
  {
    var st' := SetRequest(st, t, r);
    forall s | s in st'.queues ensures QueueInv(st', s) {
      assert QueueInv(st, s);
    }
    forall d | d in st'.deliveries ensures DeliveryInv(st', d) {
      assert DeliveryInv(st, d);
    }
  }

  lemma {:induction false} StepInv(st: State, e: Event)
    requires Inv(st) && Enabled(st, e)
    ensures Inv(Apply(st, e))
  {
    match e {
      case Ask(t, subs) =>
        var st' := Apply(st, e);
        forall s | s in st'.queues ensures QueueInv(st', s) { assert QueueInv(st, s); }
        forall d | d in st'.deliveries ensures DeliveryInv(st', d) { assert DeliveryInv(st, d); }
      case Offer(t) => OfferInv(st, t);
      case TakeHint(t) =>
        var r := st.requests[t];
        assert RequestInv(r);
        UpdateInv(st, t, r.(phase := Leaving(Hint(r.chan[0])), chan := r.chan[1..]));
      case GiveUp(t) =>
        assert RequestInv(st.requests[t]);
        UpdateInv(st, t, st.requests[t].(phase := Leaving(NoHint)));
      case Forget(t) => ForgetInv(st, t);
      case LookUp(t, h) => LookUpInv(st, t, h);
      case Send(d) => SendInv(st, d);
      case _ => QueueStepInv(st, e);
    }
  }

  lemma {:induction false} OfferInv(st: State, t: string)
    requires Inv(st) && Enabled(st, Offer(t))
    ensures Inv(Apply(st, Offer(t)))
  {
    var left := st.requests[t].phase.left;
    assert RequestInv(st.requests[t]);
    var r := st.requests[t].(phase := if |left| == 1 then Waiting else Sending(left[1..]));
    UpdateInv(st, t, r);
    var mid, st' := SetRequest(st, t, r), Apply(st, Offer(t));
    forall s | s in st'.queues ensures QueueInv(st', s) { assert QueueInv(mid, s); }
    forall d | d in st'.deliveries ensures DeliveryInv(st', d) { assert DeliveryInv(mid, d); }
  }

  lemma {:induction false} ForgetInv(st: State, t: string)
    requires Inv(st) && Enabled(st, Forget(t))
    ensures Inv(Apply(st, Forget(t)))
  {
    var st' := Apply(st, Forget(t));
    assert RequestInv(st.requests[t]);
    forall s | s in st'.queues ensures QueueInv(st', s) { assert QueueInv(st, s); }
    forall d | d in st'.deliveries ensures DeliveryInv(st', d) { assert DeliveryInv(st, d); }
  }

  lemma {:induction false} LookUpInv(st: State, t: string, h: string)
    requires Inv(st)
    ensures Inv(Apply(st, LookUp(t, h)))
  {
    if t in st.waiters && t in st.requests {
      assert RequestInv(st.requests[t]);
      var r := st.requests[t].(submitted := st.requests[t].submitted + {h});
      UpdateInv(st, t, r);
      var mid, st' := SetRequest(st, t, r), Apply(st, LookUp(t, h));
      forall d | d in st'.deliveries ensures DeliveryInv(st', d) {
        if d in mid.deliveries { assert DeliveryInv(mid, d); }
      }
      forall s | s in st'.queues ensures QueueInv(st', s) { assert QueueInv(mid, s); }
    }
  }

  lemma {:induction false} SendInv(st: State, d: int)
    requires Inv(st) && Enabled(st, Send(d))
    ensures Inv(Apply(st, Send(d)))
  {
    var Delivery(t, h) := st.deliveries[d];
    var r := st.requests[t];
    assert RequestInv(r) && DeliveryInv(st, d);
    var mid := st.(deliveries := st.deliveries - {d});
    forall s | s in mid.queues ensures QueueInv(mid, s) { assert QueueInv(st, s); }
    forall x | x in mid.deliveries ensures DeliveryInv(mid, x) { assert DeliveryInv(st, x); }
    if r.chan == [] {
      UpdateInv(mid, t, r.(chan := [h], accepted := r.accepted + [h]));
    }
  }

  lemma {:induction false} QueueStepInv(st: State, e: Event)
    requires Inv(st) && Enabled(st, e) && (e.Subscribe? || e.Unsubscribe? || e.Consume?)
    ensures Inv(Apply(st, e))
  {
    var st' := Apply(st, e);
    forall s | s in st'.queues ensures QueueInv(st', s) {
      if s in st.queues { assert QueueInv(st, s); }
    }
    forall d | d in st'.deliveries ensures DeliveryInv(st', d) { assert DeliveryInv(st, d); }
  }

  ghost predicate ValidTrace(st: State, trace: seq<Event>)
    decreases |trace|
  {
    trace == [] || (Enabled(st, trace[0]) && ValidTrace(Apply(st, trace[0]), trace[1..]))
  }

  ghost function Run(st: State, trace: seq<Event>): State
    requires ValidTrace(st, trace)
    decreases |trace|
  {
    if trace == [] then st else Run(Apply(st, trace[0]), trace[1..])
  }

  lemma {:induction false} RunInv(st: State, trace: seq<Event>)
    requires Inv(st) && ValidTrace(st, trace)
    ensures Inv(Run(st, trace))
    decreases |trace|
  {
    if trace != [] {
      StepInv(st, trace[0]);
      RunInv(Apply(st, trace[0]), trace[1..]);
    }
  }

  /** In every interleaving: a returned hint was submitted for its task and is the first one
      accepted; at most two deliveries per request return true, at most one unless it got a
      hint; and a request in any operator's queue has a registered waiter or has finished. */
  lemma {:induction false} EveryInterleaving(trace: seq<Event>, st: State)
    requires ValidTrace(Init(), trace) && st == Run(Init(), trace)
    ensures forall t | t in st.requests ::
      var r := st.requests[t];
      && |r.accepted| <= 2
      && (match ReplyOf(r.phase)
          case Some(Hint(h)) => h in r.submitted && r.accepted != [] && r.accepted[0] == h
          case _ => |r.accepted| <= 1)
    ensures forall s, t | s in st.queues && t in st.queues[s] ::
      t in st.requests && (t in st.waiters <==> !st.requests[t].phase.Finished?)
    ensures forall s | s in st.queues :: |st.queues[s]| <= QUEUE_CAP
  {
    InitInv();
    RunInv(Init(), trace);
    forall t | t in st.requests ensures RequestInv(st.requests[t]) {}
    forall s | s in st.queues ensures QueueInv(st, s) {}
  }

  ghost predicate Same(a: State, b: State) {
    && a.requests == b.requests && a.waiters == b.waiters && a.subscribers == b.subscribers && a.queues == b.queues
    && a.nextSubId == b.nextSubId && a.deliveries == b.deliveries && a.nextDelivery == b.nextDelivery
  }

  lemma {:induction false} Prepend(st: State, e: Event, next: State, rest: seq<Event>)
    requires Enabled(st, e) && Same(Apply(st, e), next) && ValidTrace(next, rest)
    ensures ValidTrace(st, [e] + rest) && Run(st, [e] + rest) == Run(next, rest)
  {
    assert ([e] + rest)[1..] == rest;
  }

  /** One subscriber and one request. */
  function OneRequest(r: Request, waiters: set<string>, queue: seq<string>, ds: map<int, Delivery>, n: int): State {
    State(map["t" := r], waiters, {1}, map[1 := queue], 1, ds, n)
  }

  lemma {:induction false} AskAndOffer(rest: seq<Event>) returns (trace: seq<Event>)
    requires ValidTrace(OneRequest(Request(Waiting, [], {}, []), {"t"}, ["t"], map[], 0), rest)
    ensures ValidTrace(Init(), trace)
    ensures Run(Init(), trace) == Run(OneRequest(Request(Waiting, [], {}, []), {"t"}, ["t"], map[], 0), rest)
  {
    var s1 := State(map[], {}, {1}, map[1 := []], 1, map[], 0);
    var s2 := OneRequest(Request(Sending([1]), [], {}, []), {"t"}, [], map[], 0);
    var s3 := OneRequest(Request(Waiting, [], {}, []), {"t"}, ["t"], map[], 0);
    assert [] + ["t"] == ["t"];
    trace := [Offer("t")] + rest;
    Prepend(s2, Offer("t"), s3, rest);
    Prepend(s1, Ask("t", [1]), s2, trace);
    trace := [Ask("t", [1])] + trace;
    Prepend(Init(), Subscribe, s1, trace);
    trace := [Subscribe] + trace;
  }

  lemma {:induction false} LookUpTwice(a: string, b: string, rest: seq<Event>) returns (trace: seq<Event>)
    requires ValidTrace(OneRequest(Request(Waiting, [], {a, b}, []), {"t"}, ["t"],
                                   map[0 := Delivery("t", a), 1 := Delivery("t", b)], 2), rest)
    ensures var s3 := OneRequest(Request(Waiting, [], {}, []), {"t"}, ["t"], map[], 0);
            && ValidTrace(s3, trace)
            && Run(s3, trace) == Run(OneRequest(Request(Waiting, [], {a, b}, []), {"t"}, ["t"],
                                                map[0 := Delivery("t", a), 1 := Delivery("t", b)], 2), rest)
  {
    var s3 := OneRequest(Request(Waiting, [], {}, []), {"t"}, ["t"], map[], 0);
    var s4 := OneRequest(Request(Waiting, [], {a}, []), {"t"}, ["t"], map[0 := Delivery("t", a)], 1);
    var s5 := OneRequest(Request(Waiting, [], {a, b}, []), {"t"}, ["t"],
      map[0 := Delivery("t", a), 1 := Delivery("t", b)], 2);
    assert {} + {a} == {a} && {a} + {b} == {a, b};
    trace := [LookUp("t", b)] + rest;
    Prepend(s4, LookUp("t", b), s5, rest);
    Prepend(s3, LookUp("t", a), s4, trace);
    trace := [LookUp("t", a)] + trace;
  }

  lemma {:induction false} SendAndTake(a: string, b: string, rest: seq<Event>) returns (trace: seq<Event>)
    requires ValidTrace(OneRequest(Request(Leaving(Hint(a)), [], {a, b}, [a]), {"t"}, ["t"],
             map[1 := Delivery("t", b)], 2), rest)
    ensures var s5 := OneRequest(Request(Waiting, [], {a, b}, []), {"t"}, ["t"],
                                 map[0 := Delivery("t", a), 1 := Delivery("t", b)], 2);
            && ValidTrace(s5, trace)
            && Run(s5, trace) == Run(OneRequest(Request(Leaving(Hint(a)), [], {a, b}, [a]), {"t"}, ["t"],
                                                map[1 := Delivery("t", b)], 2), rest)
  {
    var s5 := OneRequest(Request(Waiting, [], {a, b}, []), {"t"}, ["t"],
      map[0 := Delivery("t", a), 1 := Delivery("t", b)], 2);
    var s6 := OneRequest(Request(Waiting, [a], {a, b}, [a]), {"t"}, ["t"], map[1 := Delivery("t", b)], 2);
    var s7 := OneRequest(Request(Leaving(Hint(a)), [], {a, b}, [a]), {"t"}, ["t"], map[1 := Delivery("t", b)], 2);
    assert [] + [a] == [a] && [a][1..] == [];
    trace := [TakeHint("t")] + rest;
    Prepend(s6, TakeHint("t"), s7, rest);
    assert s5.deliveries - {0} == s6.deliveries;
    Prepend(s5, Send(0), s6, trace);
    trace := [Send(0)] + trace;
  }

  lemma {:induction false} SendAfterTake(a: string, b: string) returns (trace: seq<Event>)
    ensures var s7 := OneRequest(Request(Leaving(Hint(a)), [], {a, b}, [a]), {"t"}, ["t"], map[1 := Delivery("t", b)],
            2);
            && ValidTrace(s7, trace)
            && Run(s7, trace) == OneRequest(Request(Finished(Hint(a)), [b], {a, b}, [a, b]), {}, ["t"], map[], 2)
  {
    var s7 := OneRequest(Request(Leaving(Hint(a)), [], {a, b}, [a]), {"t"}, ["t"], map[1 := Delivery("t", b)], 2);
    var s8 := OneRequest(Request(Leaving(Hint(a)), [b], {a, b}, [a, b]), {"t"}, ["t"], map[], 2);
    var s9 := OneRequest(Request(Finished(Hint(a)), [b], {a, b}, [a, b]), {}, ["t"], map[], 2);
    assert [a] + [b] == [a, b] && [] + [b] == [b];
    trace := [Forget("t")] + [];
    Prepend(s8, Forget("t"), s9, []);
    Prepend(s7, Send(1), s8, trace);
    trace := [Send(1)] + trace;
  }

  /** The bound of two is reached: for any two hints both deliveries can return true, the
      second never to be read, because the channel is free again between the receive and the
      delete of the waiter. */
  lemma {:induction false} SecondHintGoesUnread(a: string, b: string) returns (trace: seq<Event>)
    ensures ValidTrace(Init(), trace) && "t" in Run(Init(), trace).requests
    ensures Run(Init(), trace).requests["t"] == Request(Finished(Hint(a)), [b], {a, b}, [a, b])
  {
    var late := SendAfterTake(a, b);
    var sends := SendAndTake(a, b, late);
    var middle := LookUpTwice(a, b, sends);
    trace := AskAndOffer(middle);
  }

  // ---- The hub's critical sections ----

  /** The hub's shared maps. Each method is one atomic section of a concurrent call; which
      call runs its next section when is up to the scheduler. */
  class Broker {
    var requests: map<string, Request>
    var waiters: set<string>
    var subscribers: set<int>
    var queues: map<int, seq<string>>
    var nextSubId: int
    var deliveries: map<int, Delivery>
    var nextDelivery: int

    ghost function View(): State
      reads this
    {
      State(requests, waiters, subscribers, queues, nextSubId, deliveries, nextDelivery)
    }

    constructor ()
      ensures View() == Init()
    {
      requests, waiters, subscribers, queues := map[], {}, {}, map[];
      nextSubId, deliveries, nextDelivery := 0, map[], 0;
    }

    /** RequestHelp, first section: registers the waiter and copies the subscriber list. */
    method Register(task: string) returns (subs: seq<int>)
      requires task !in requests
      modifies this
      ensures Enabled(old(View()), Ask(task, subs)) && View() == Apply(old(View()), Ask(task, subs))
    {
      subs := ListKeys(subscribers);
      requests := requests[task := Request(if subs == [] then Leaving(NoSubscriber) else Sending(subs), [], {}, [])];
      waiters := waiters + {task};
    }

    /** The broadcast loop's next non-blocking send; dropped when the queue is full. */
    method OfferNext(task: string)
      requires Enabled(View(), Offer(task))
      modifies this
      ensures View() == Apply(old(View()), Offer(task))
    {
      var r := requests[task];
      var sub := r.phase.left[0];
      if sub in queues && |queues[sub]| < QUEUE_CAP {
        queues := queues[sub := queues[sub] + [task]];
      }
      requests := requests[task := r.(phase := if |r.phase.left| == 1 then Waiting else Sending(r.phase.left[1..]))];
    }

    /** The select of RequestHelp; timedOut is chosen by the clock and the context. */
    method Select(task: string, timedOut: bool) returns (reply: Reply)
      requires Enabled(View(), if timedOut then GiveUp(task) else TakeHint(task))
      modifies this
      ensures View() == Apply(old(View()), if timedOut then GiveUp(task) else TakeHint(task))
      ensures requests[task].phase == Leaving(reply)
    {
      var r := requests[task];
      if timedOut {
        reply := NoHint;
        requests := requests[task := r.(phase := Leaving(reply))];
      } else {
        reply := Hint(r.chan[0]);
        requests := requests[task := r.(phase := Leaving(reply), chan := r.chan[1..])];
      }
    }

    method DeleteWaiter(task: string)
      requires Enabled(View(), Forget(task))
      modifies this
      ensures View() == Apply(old(View()), Forget(task))
    {
      requests := requests[task := requests[task].(phase := Finished(requests[task].phase.reply))];
      waiters := waiters - {task};
    }

    /** DeliverHint, first section. */
    method FindWaiter(task: string, hint: string) returns (delivery: Option<int>)
      requires Inv(View())
      modifies this
      ensures View() == Apply(old(View()), LookUp(task, hint))
      ensures delivery.Some? <==> old(task in waiters)
      ensures delivery.Some? ==> delivery.value in deliveries && deliveries[delivery.value] == Delivery(task, hint)
    {
      if task !in waiters {
        return None;
      }
      requests := requests[task := requests[task].(submitted := requests[task].submitted + {hint})];
      deliveries := deliveries[nextDelivery := Delivery(task, hint)];
      nextDelivery := nextDelivery + 1;
      return Some(nextDelivery - 1);
    }

    /** DeliverHint, second section: true exactly if the hint went into the channel. */
    method TrySend(delivery: int) returns (accepted: bool)
      requires Enabled(View(), Send(delivery))
      modifies this
      ensures View() == Apply(old(View()), Send(delivery))
      ensures var Delivery(t, h) := old(deliveries)[delivery];
              requests[t].accepted == old(requests)[t].accepted + if accepted then [h] else []
    {
      var Delivery(t, h) := deliveries[delivery];
      deliveries := deliveries - {delivery};
      accepted := requests[t].chan == [];
      if accepted {
        requests := requests[t := requests[t].(chan := [h], accepted := requests[t].accepted + [h])];
      }
    }

    method AddSubscriber() returns (id: int)
      modifies this
      ensures View() == Apply(old(View()), Subscribe) && id == nextSubId
    {
      nextSubId := nextSubId + 1;
      id := nextSubId;
      subscribers := subscribers + {id};
      queues := queues[id := []];
    }

    method RemoveSubscriber(id: int)
      modifies this
      ensures View() == Apply(old(View()), Unsubscribe(id))
    {
      subscribers := subscribers - {id};
    }

    method NextRequest(sub: int) returns (task: string)
      requires Enabled(View(), Consume(sub))
      modifies this
      ensures View() == Apply(old(View()), Consume(sub)) && task == old(queues)[sub][0]
    {
      task := queues[sub][0];
      queues := queues[sub := queues[sub][1..]];
    }
  }
}
