/** The fan-out of activity events to bounded queues, as atomic steps of concurrent calls
    (internal/dashboard/activity.go). An event stands for the number of the Publish call that
    ships it. */
module Activity {
  import opened Base

  const CAP := 64

  /** A subscriber's channel: what is buffered, what its consumer has received so far, and how
      many events had been published when it was made. */
  datatype Channel = Channel(queue: seq<nat>, received: seq<nat>, closed: bool, since: nat)

  /** The select a Publish call executes next, for the first of the channels it has left. */
  datatype Stage = First | Drop | Again

  datatype Publisher = Publisher(event: nat, left: seq<int>, stage: Stage)

  /** panicked: a send hit a closed channel, or a channel was closed twice. */
  datatype State = State(
    channels: map<int, Channel>, subscribers: set<int>, nextId: int,
    publishers: map<int, Publisher>, published: nat, panicked: bool)

  datatype Event =
    | Subscribe
    | Cancel(id: int)
    | Begin(p: int, order: seq<int>)   // Publish takes the read lock and starts to iterate
    | TrySend(p: int)                  // the first select
    | DropOldest(p: int)               // the second select
    | Retry(p: int)                    // the third select
    | Finish(p: int)                   // Publish returns
    | Receive(id: int)                 // the consumer takes an event

  function Init(): State {
    State(map[], {}, 0, map[], 0, false)
  }

  /** The channel publisher p works on. */
  ghost predicate At(st: State, p: int, stage: Stage) {
    p in st.publishers && st.publishers[p].left != [] && st.publishers[p].stage == stage &&
      st.publishers[p].left[0] in st.channels
  }

  /** Subscribe and cancel take the write lock, so no Publish is under way; any number of
      Publish calls may share the read lock. */
  ghost predicate Enabled(st: State, e: Event) {
    match e
    case Subscribe => st.publishers == map[]
    case Cancel(id) => st.publishers == map[] && id in st.channels
    case Begin(p, order) => p !in st.publishers && ListsOnce(order, st.subscribers)
    case TrySend(p) => At(st, p, First)
    case DropOldest(p) => At(st, p, Drop)
    case Retry(p) => At(st, p, Again)
    case Finish(p) => p in st.publishers && st.publishers[p].left == []
    case Receive(id) => id in st.channels && st.channels[id].queue != []
  }

  function SetChannel(st: State, id: int, ch: Channel): State {
    st.(channels := st.channels[id := ch])
  }

  function SetPublisher(st: State, p: int, pub: Publisher): State {
    st.(publishers := st.publishers[p := pub])
  }

  function Pushed(ch: Channel, event: nat): Channel {
    ch.(queue := ch.queue + [event])
  }

  function Dropped(ch: Channel): Channel {
    if ch.queue == [] then ch else ch.(queue := ch.queue[1..])
  }

  function Passed(pub: Publisher): Publisher
    requires pub.left != []
  {
    pub.(left := pub.left[1..], stage := First)
  }

  ghost function Apply(st: State, e: Event): State
    requires Enabled(st, e)
  {
    match e
    case Subscribe =>
      st.(channels := st.channels[st.nextId := Channel([], [], false, st.published)],
          subscribers := st.subscribers + {st.nextId}, nextId := st.nextId + 1)
    case Cancel(id) =>
      if id in st.subscribers then
        SetChannel(st, id, st.channels[id].(closed := true)).(
          subscribers := st.subscribers - {id}, panicked := st.panicked || st.channels[id].closed)
      else st
    case Begin(p, order) => SetPublisher(st, p, Publisher(st.published, order, First)).(published := st.published + 1)
    case TrySend(p) =>
      var pub := st.publishers[p];
      var ch := st.channels[pub.left[0]];
      if ch.closed then st.(panicked := true)
      else if |ch.queue| < CAP then SetPublisher(SetChannel(st, pub.left[0], Pushed(ch, pub.event)), p, Passed(pub))
      else SetPublisher(st, p, pub.(stage := Drop))
    case DropOldest(p) =>
      var pub := st.publishers[p];
      SetPublisher(SetChannel(st, pub.left[0], Dropped(st.channels[pub.left[0]])), p, pub.(stage := Again))
    case Retry(p) =>
      var pub := st.publishers[p];
      var ch := st.channels[pub.left[0]];
      if ch.closed then st.(panicked := true)
      else if |ch.queue| < CAP then SetPublisher(SetChannel(st, pub.left[0], Pushed(ch, pub.event)), p, Passed(pub))
      else SetPublisher(st, p, Passed(pub))
    case Finish(p) => st.(publishers := st.publishers - {p})
    case Receive(id) =>
      var ch := st.channels[id];
      SetChannel(st, id, ch.(queue := ch.queue[1..], received := ch.received + [ch.queue[0]]))
  }

  // ---- Any number of publishers ----

  /** Everything that is or was in the channel and not dropped, in the order it was sent. */
  function Kept(ch: Channel): seq<nat> {
    ch.received + ch.queue
  }

  ghost predicate Distinct<T(!new)>(s: seq<T>) {
    forall i, j | 0 <= i < j < |s| :: s[i] != s[j]
  }

  ghost predicate ChannelInv(st: State, id: int)
    requires id in st.channels
  {
    var ch := st.channels[id];
    && |ch.queue| <= CAP && Distinct(Kept(ch)) && (forall e | e in Kept(ch) :: ch.since <= e < st.published)
    && (ch.closed <==> id !in st.subscribers) && ch.since <= st.published && id < st.nextId
  }

  /** The publisher still owes its event to this open channel. */
  ghost predicate Owes(st: State, pub: Publisher, id: int) {
    id in st.subscribers && id in st.channels && st.channels[id].since <= pub.event &&
      pub.event !in Kept(st.channels[id])
  }

  ghost predicate PublisherInv(st: State, p: int)
    requires p in st.publishers
  {
    var pub := st.publishers[p];
    && pub.event < st.published && Distinct(pub.left) && (pub.left == [] ==> pub.stage == First)
    && forall id | id in pub.left :: Owes(st, pub, id)
  }

  ghost predicate EventsDiffer(st: State) {
    forall p, q | p in st.publishers && q in st.publishers && p != q :: st.publishers[p].event != st.publishers[q].event
  }

  ghost predicate Inv(st: State) {
    && !st.panicked && EventsDiffer(st)
    && (forall id | id in st.channels :: ChannelInv(st, id))
    && (forall p | p in st.publishers :: PublisherInv(st, p))
    && (forall id | id in st.subscribers :: id in st.channels)
  }

  /** Replacing a channel by one that keeps less, or also one event nobody else publishes. */
  lemma {:induction false} ChannelUpdateInv(st: State, id: int, ch: Channel, p: int)
    requires Inv(st) && p in st.publishers && id in st.publishers[p].left
    requires |ch.queue| <= CAP && Distinct(Kept(ch)) && ch.closed == st.channels[id].closed &&
             ch.since == st.channels[id].since
    requires forall e | e in Kept(ch) :: e in Kept(st.channels[id]) || e == st.publishers[p].event
    ensures forall c | c in SetChannel(st, id, ch).channels :: ChannelInv(SetChannel(st, id, ch), c)
    ensures forall q | q in st.publishers && q != p :: PublisherInv(SetChannel(st, id, ch), q)
    ensures forall c | c in st.publishers[p].left && c != id :: Owes(SetChannel(st, id, ch), st.publishers[p], c)
  {
    var st' := SetChannel(st, id, ch);
    assert PublisherInv(st, p) && Owes(st, st.publishers[p], id);
    forall c | c in st'.channels ensures ChannelInv(st', c) {
      assert ChannelInv(st, c);
    }
    forall q | q in st.publishers && q != p ensures PublisherInv(st', q) {
      assert PublisherInv(st, q);
      forall c | c in st.publishers[q].left ensures Owes(st', st.publishers[q], c) {
        assert Owes(st, st.publishers[q], c);
      }
    }
    forall c | c in st.publishers[p].left && c != id ensures Owes(st', st.publishers[p], c) {
      assert Owes(st, st.publishers[p], c);
    }
  }

  /** Moving one publisher on, once its channel is settled. */
  lemma {:induction false} PublisherUpdateInv(st: State, p: int, pub: Publisher)
    requires !st.panicked && EventsDiffer(st) && p in st.publishers && pub.event == st.publishers[p].event
    requires (forall id | id in st.channels :: ChannelInv(st, id)) &&
             (forall id | id in st.subscribers :: id in st.channels)
    requires forall q | q in st.publishers && q != p :: PublisherInv(st, q)
    requires pub.event < st.published && Distinct(pub.left) && (pub.left == [] ==> pub.stage == First)
    requires forall id | id in pub.left :: Owes(st, pub, id)
    ensures Inv(SetPublisher(st, p, pub))
  {
    var st' := SetPublisher(st, p, pub);
    forall c | c in st'.channels ensures ChannelInv(st', c) {
      assert ChannelInv(st, c);
    }
    forall q | q in st'.publishers ensures PublisherInv(st', q) {
      if q != p { assert PublisherInv(st, q); }
      forall c | c in st'.publishers[q].left ensures Owes(st', st'.publishers[q], c) {
        assert Owes(st, st'.publishers[q], c);
      }
    }
  }

  lemma {:induction false} SendInv(st: State, p: int)
    requires Inv(st) && p in st.publishers && st.publishers[p].left != []
    ensures var pub := st.publishers[p]; pub.left[0] in st.channels && !st.channels[pub.left[0]].closed
    ensures var pub := st.publishers[p]; var id := pub.left[0];
            |st.channels[id].queue| < CAP ==> Inv(SetPublisher(SetChannel(st, id, Pushed(st.channels[id], pub.event)),
              p, Passed(pub)))
    ensures Inv(SetPublisher(st, p, Passed(st.publishers[p])))
    ensures forall stage :: Inv(SetPublisher(st, p, st.publishers[p].(stage := stage)))
  {
    var pub := st.publishers[p];
    var id := pub.left[0];
    assert PublisherInv(st, p) && id in pub.left && Owes(st, pub, id);
    var ch := st.channels[id];
    assert ChannelInv(st, id);
    var rest := Passed(pub);
    forall c | c in rest.left ensures c in pub.left && c != id && Owes(st, rest, c) {
      var i :| 0 <= i < |rest.left| && rest.left[i] == c;
      assert c == pub.left[i + 1] && Owes(st, pub, c);
    }
    assert Distinct(rest.left);
    if |ch.queue| < CAP {
      assert Kept(Pushed(ch, pub.event)) == Kept(ch) + [pub.event];
      ChannelUpdateInv(st, id, Pushed(ch, pub.event), p);
      forall c | c in rest.left ensures Owes(SetChannel(st, id, Pushed(ch, pub.event)), rest, c) {
        assert Owes(SetChannel(st, id, Pushed(ch, pub.event)), pub, c);
      }
      PublisherUpdateInv(SetChannel(st, id, Pushed(ch, pub.event)), p, Passed(pub));
    }
    PublisherUpdateInv(st, p, Passed(pub));
    forall stage ensures Inv(SetPublisher(st, p, pub.(stage := stage))) {
      PublisherUpdateInv(st, p, pub.(stage := stage));
    }
  }

  lemma {:induction false} DropInv(st: State, p: int)
    requires Inv(st) && Enabled(st, DropOldest(p))
    ensures Inv(Apply(st, DropOldest(p)))
  {
    var pub := st.publishers[p];
    var id := pub.left[0];
    var ch := st.channels[id];
    assert PublisherInv(st, p) && Owes(st, pub, id) && ChannelInv(st, id);
    forall e | e in Kept(Dropped(ch)) ensures e in Kept(ch) {}
    forall i, j | 0 <= i < j < |Kept(Dropped(ch))| ensures Kept(Dropped(ch))[i] != Kept(Dropped(ch))[j] {
      var k := if i < |ch.received| then i else i + |ch.queue| - |Dropped(ch).queue|;
      var l := if j < |ch.received| then j else j + |ch.queue| - |Dropped(ch).queue|;
      assert Kept(ch)[k] == Kept(Dropped(ch))[i] && Kept(ch)[l] == Kept(Dropped(ch))[j];
    }
    ChannelUpdateInv(st, id, Dropped(ch), p);
    var st' := SetChannel(st, id, Dropped(ch));
    PublisherUpdateInv(st', p, pub.(stage := Again));
  }

  /** Receiving moves an event from the queue to the received ones. */
  lemma {:induction false} ReceiveInv(st: State, id: int)
    requires Inv(st) && Enabled(st, Receive(id))
    ensures Inv(Apply(st, Receive(id)))
  {
    var st' := Apply(st, Receive(id));
    assert Kept(st'.channels[id]) == Kept(st.channels[id]);
    forall c | c in st'.channels ensures ChannelInv(st', c) { assert ChannelInv(st, c); }
    forall q | q in st'.publishers ensures PublisherInv(st', q) {
      assert PublisherInv(st, q);
      forall c | c in st'.publishers[q].left ensures Owes(st', st'.publishers[q], c) {
        assert Owes(st, st'.publishers[q], c);
      }
    }
  }

  lemma {:induction false} LockedStepInv(st: State, e: Event)
    requires Inv(st) && Enabled(st, e) && (e.Subscribe? || e.Cancel? || e.Begin? || e.Finish?)
    ensures Inv(Apply(st, e))
  {
    var st' := Apply(st, e);
    forall c | c in st'.channels ensures ChannelInv(st', c) {
      if c in st.channels { assert ChannelInv(st, c); }
    }
    forall q | q in st'.publishers ensures PublisherInv(st', q) {
      if q in st.publishers { assert PublisherInv(st, q); }
      forall c | c in st'.publishers[q].left ensures Owes(st', st'.publishers[q], c) {
        if q in st.publishers { assert Owes(st, st'.publishers[q], c); } else { assert ChannelInv(st, c); }
      }
    }
    forall p, q | p in st'.publishers && q in st'.publishers &&
      p != q ensures st'.publishers[p].event != st'.publishers[q].event {
      if p in st.publishers { assert PublisherInv(st, p); }
      if q in st.publishers { assert PublisherInv(st, q); }
    }
  }

  lemma {:induction false} StepInv(st: State, e: Event)
    requires Inv(st) && Enabled(st, e)
    ensures Inv(Apply(st, e))
  {
    match e {
      case TrySend(p) => SendInv(st, p);
      case Retry(p) => SendInv(st, p);
      case DropOldest(p) => DropInv(st, p);
      case Receive(id) => ReceiveInv(st, id);
      case _ => LockedStepInv(st, e);
    }
  }

  ghost predicate ValidTrace(st: State, trace: seq<Event>)
    decreases |trace|
  {
    trace == [] || (Enabled(st, trace[0]) && ValidTrace(Apply(st, trace[0]), trace[1..]))
  }

  ghost function Run(st: State, trace: seq<Event>): State
    requires ValidTrace(st, trace)
    decreases |trace|
  {
    if trace == [] then st else Run(Apply(st, trace[0]), trace[1..])
  }

  lemma {:induction false} RunInv(st: State, trace: seq<Event>)
    requires Inv(st) && ValidTrace(st, trace)
    ensures Inv(Run(st, trace))
    decreases |trace|
  {
    if trace != [] {
      StepInv(st, trace[0]);
      RunInv(Apply(st, trace[0]), trace[1..]);
    }
  }

  /** In every interleaving of subscriptions, cancels (repeated ones too), consumers and any
      number of publishers: nothing is sent on a closed channel or closed twice, no queue
      outgrows its capacity, and a subscriber gets each event at most once and none from
      before its subscription. */
  lemma {:induction false} EveryInterleaving(trace: seq<Event>, st: State)
    requires ValidTrace(Init(), trace) && st == Run(Init(), trace)
    ensures !st.panicked
    ensures forall id | id in st.channels ::
      var ch := st.channels[id];
      |ch.queue| <= CAP && Distinct(Kept(ch)) && forall e | e in Kept(ch) :: ch.since <= e < st.published
    ensures forall id | id in st.channels :: id in st.subscribers <==> !st.channels[id].closed
  {
    RunInv(Init(), trace);
    forall id | id in st.channels ensures ChannelInv(st, id) {}
  }

  // ---- One publisher at a time ----

  /** All Publish calls run one after the other, as publisher 0. */
  ghost predicate OneAtATime(trace: seq<Event>) {
    forall i | 0 <= i < |trace| && trace[i].Begin? :: trace[i].p == 0
  }

  predicate Pending(st: State, id: int) {
    0 in st.publishers && id in st.publishers[0].left
  }

  predicate Retrying(st: State, id: int) {
    0 in st.publishers && st.publishers[0].left != [] && st.publishers[0].left[0] == id &&
      st.publishers[0].stage == Again
  }

  /** How many events have been offered to an open channel, or published before it was made. */
  function Offered(st: State, id: int): int {
    st.published - if Pending(st, id) then 1 else 0
  }

  ghost predicate Before(s: seq<nat>, i: nat, j: nat)
    requires i < j < |s|
  {
    s[i] < s[j]
  }

  ghost predicate Increasing(s: seq<nat>) {
    forall i, j {:trigger Before(s, i, j)} | 0 <= i < j < |s| :: Before(s, i, j)
  }

  ghost predicate CountsTo(s: seq<nat>, i: nat, last: int)
    requires i < |s|
  {
    s[i] == last + 1 - |s| + i
  }

  /** The |s| numbers up to last, without a gap. */
  ghost predicate EndsAt(s: seq<nat>, last: int) {
    forall i {:trigger CountsTo(s, i, last)} | 0 <= i < |s| :: CountsTo(s, i, last)
  }

  /** The channel's content is in order, and if it is open reaches up to the events offered;
      an empty queue means that the last event offered was received, except between dropping
      the oldest event and sending the newest. */
  ghost predicate InOrder(ch: Channel, open: bool, offered: int, retrying: bool) {
    && Increasing(Kept(ch))
    && (open ==> EndsAt(ch.queue, offered - 1))
    && (open && ch.queue == [] && ch.since < offered && !retrying ==>
        ch.received != [] && ch.received[|ch.received| - 1] == offered - 1)
    && (open && retrying ==> |ch.queue| < CAP)
  }

  lemma {:induction false} PushOrdered(ch: Channel, event: nat, retrying: bool)
    requires InOrder(ch, true, event, retrying) && forall e | e in Kept(ch) :: e < event
    ensures InOrder(Pushed(ch, event), true, event + 1, false)
  {
    var ch' := Pushed(ch, event);
    assert Kept(ch') == Kept(ch) + [event];
    forall i, j | 0 <= i < j < |Kept(ch')| ensures Before(Kept(ch'), i, j) {
      if j < |Kept(ch)| { assert Before(Kept(ch), i, j); } else { assert Kept(ch)[i] in Kept(ch); }
    }
    forall i | 0 <= i < |ch'.queue| ensures CountsTo(ch'.queue, i, event) {
      if i < |ch.queue| { assert CountsTo(ch.queue, i, event - 1); }
    }
  }

  lemma {:induction false} DropOrdered(ch: Channel, offered: int)
    requires InOrder(ch, true, offered, false) && |ch.queue| <= CAP
    ensures InOrder(Dropped(ch), true, offered, true)
  {
    var ch' := Dropped(ch);
    var d := |ch.queue| - |ch'.queue|;
    forall i, j | 0 <= i < j < |Kept(ch')| ensures Before(Kept(ch'), i, j) {
      var k, l := if i < |ch.received| then i else i + d, if j < |ch.received| then j else j + d;
      assert Before(Kept(ch), k, l) && Kept(ch)[k] == Kept(ch')[i] && Kept(ch)[l] == Kept(ch')[j];
    }
    var last := offered - 1;
    forall i | 0 <= i < |ch'.queue| ensures CountsTo(ch'.queue, i, last) {
      assert CountsTo(ch.queue, i + d, last);
    }
  }

  lemma {:induction false} ReceiveOrdered(ch: Channel, open: bool, offered: int, retrying: bool)
    requires InOrder(ch, open, offered, retrying) && ch.queue != []
    ensures InOrder(ch.(queue := ch.queue[1..], received := ch.received + [ch.queue[0]]), open, offered, retrying)
  {
    var ch' := ch.(queue := ch.queue[1..], received := ch.received + [ch.queue[0]]);
    assert Kept(ch') == Kept(ch);
    if open {
      var last := offered - 1;
      assert CountsTo(ch.queue, 0, last);
      forall i | 0 <= i < |ch'.queue| ensures CountsTo(ch'.queue, i, last) {
        assert CountsTo(ch.queue, i + 1, last);
      }
    }
  }

  ghost predicate SoloChannel(st: State, id: int)
    requires id in st.channels
  {
    InOrder(st.channels[id], id in st.subscribers, Offered(st, id), Retrying(st, id))
  }

  ghost predicate SoloInv(st: State) {
    && Inv(st)
    && (forall p | p in st.publishers :: p == 0 && st.publishers[p].event == st.published - 1)
    && (forall id | id in st.channels :: SoloChannel(st, id))
  }

  /** A step that only touches the channel the publisher works on leaves the others' standing alone. */
  lemma {:induction false} OthersKeep(st: State, ch: Channel, pub: Publisher)
    requires SoloInv(st) && 0 in st.publishers && st.publishers[0].left != [] && st.publishers[0].left[0] in st.channels
    requires pub == Passed(st.publishers[0]) || pub.left == st.publishers[0].left
    ensures var id := st.publishers[0].left[0]; var st' := SetPublisher(SetChannel(st, id, ch), 0, pub);
            forall c | c in st'.channels && c != id :: SoloChannel(st', c)
  {
    var left := st.publishers[0].left;
    var st' := SetPublisher(SetChannel(st, left[0], ch), 0, pub);
    assert left == [left[0]] + left[1..];
    forall c | c in st'.channels && c != left[0] ensures SoloChannel(st', c) {
      assert SoloChannel(st, c);
      assert c in left <==> c in pub.left;
      assert Offered(st', c) == Offered(st, c) && !Retrying(st', c);
    }
  }

  /** Putting a pending event into a channel with room. */
  lemma {:induction false} SoloPush(st: State)
    requires SoloInv(st) && 0 in st.publishers && st.publishers[0].left != []
    requires var id := st.publishers[0].left[0]; id in st.channels && |st.channels[id].queue| < CAP
    ensures var pub := st.publishers[0]; var id := pub.left[0];
            SoloInv(SetPublisher(SetChannel(st, id, Pushed(st.channels[id], pub.event)), 0, Passed(pub)))
  {
    var pub := st.publishers[0];
    var id := pub.left[0];
    var ch := st.channels[id];
    SendInv(st, 0);
    OthersKeep(st, Pushed(ch, pub.event), Passed(pub));
    assert PublisherInv(st, 0) && id in pub.left && Owes(st, pub, id) && ChannelInv(st, id) && SoloChannel(st, id);
    PushOrdered(ch, pub.event, Retrying(st, id));
    assert id !in Passed(pub).left;
  }

  lemma {:induction false} SoloDrop(st: State)
    requires SoloInv(st) && Enabled(st, DropOldest(0))
    ensures SoloInv(Apply(st, DropOldest(0)))
  {
    var pub := st.publishers[0];
    var id := pub.left[0];
    DropInv(st, 0);
    OthersKeep(st, Dropped(st.channels[id]), pub.(stage := Again));
    assert PublisherInv(st, 0) && id in pub.left && Owes(st, pub, id) && ChannelInv(st, id) && SoloChannel(st, id);
    DropOrdered(st.channels[id], Offered(st, id));
  }

  lemma {:induction false} SoloReceive(st: State, id: int)
    requires SoloInv(st) && Enabled(st, Receive(id))
    ensures SoloInv(Apply(st, Receive(id)))
  {
    var st' := Apply(st, Receive(id));
    ReceiveInv(st, id);
    forall c | c in st'.channels ensures SoloChannel(st', c) {
      assert SoloChannel(st, c) && Offered(st', c) == Offered(st, c) && Retrying(st', c) == Retrying(st, c);
      if c == id {
        ReceiveOrdered(st.channels[c], c in st.subscribers, Offered(st, c), Retrying(st, c));
      }
    }
  }

  lemma {:induction false} SoloFull(st: State)
    requires SoloInv(st) && At(st, 0, First) && |st.channels[st.publishers[0].left[0]].queue| == CAP
    ensures SoloInv(SetPublisher(st, 0, st.publishers[0].(stage := Drop)))
  {
    var st' := SetPublisher(st, 0, st.publishers[0].(stage := Drop));
    SendInv(st, 0);
    forall c | c in st'.channels ensures SoloChannel(st', c) {
      assert SoloChannel(st, c) && Offered(st', c) == Offered(st, c);
    }
  }

  lemma {:induction false} SoloLocked(st: State, e: Event)
    requires SoloInv(st) && Enabled(st, e) && (e.Subscribe? || e.Cancel? || e.Begin? || e.Finish?) &&
             (e.Begin? ==> e.p == 0)
    ensures SoloInv(Apply(st, e))
  {
    var st' := Apply(st, e);
    LockedStepInv(st, e);
    forall c | c in st'.channels ensures SoloChannel(st', c) {
      if c in st.channels { assert SoloChannel(st, c) && ChannelInv(st, c); }
    }
  }

  lemma {:induction false} SoloStep(st: State, e: Event)
    requires SoloInv(st) && Enabled(st, e) && (e.Begin? ==> e.p == 0)
    ensures SoloInv(Apply(st, e))
  {
    match e {
      case TrySend(p) =>
        SendInv(st, p);
        assert ChannelInv(st, st.publishers[p].left[0]);
        if |st.channels[st.publishers[p].left[0]].queue| < CAP { SoloPush(st); } else { SoloFull(st); }
      case Retry(p) =>
        SendInv(st, p);
        assert PublisherInv(st, p) && st.publishers[p].left[0] in st.publishers[p].left;
        assert Owes(st, st.publishers[p], st.publishers[p].left[0]);
        assert SoloChannel(st, st.publishers[p].left[0]);
        SoloPush(st);
      case DropOldest(p) => SoloDrop(st);
      case Receive(id) => SoloReceive(st, id);
      case _ => SoloLocked(st, e);
    }
  }

  lemma {:induction false} SoloRun(st: State, trace: seq<Event>)
    requires SoloInv(st) && ValidTrace(st, trace) && OneAtATime(trace)
    ensures SoloInv(Run(st, trace))
    decreases |trace|
  {
    if trace != [] {
      SoloStep(st, trace[0]);
      SoloRun(Apply(st, trace[0]), trace[1..]);
    }
  }

  /** With one publisher at a time and any interleaved consumers: an open queue always holds
      the latest events offered to it, without a gap; what a subscriber receives is in
      publication order and before everything it still has queued; and whenever no Publish is
      under way, the newest event is the last of the queue, or the last one received. */
  lemma {:induction false} LatestAreKept(trace: seq<Event>, st: State)
    requires ValidTrace(Init(), trace) && OneAtATime(trace) && st == Run(Init(), trace)
    ensures forall id | id in st.channels :: Increasing(Kept(st.channels[id]))
    ensures forall id | id in st.subscribers ::
      id in st.channels && EndsAt(st.channels[id].queue, Offered(st, id) - 1)
    ensures st.publishers == map[] ==> forall id | id in st.subscribers ::
      var kept := Kept(st.channels[id]);
      st.channels[id].since < st.published ==> kept != [] && kept[|kept| - 1] == st.published - 1
  {
    SoloRun(Init(), trace);
    forall id | id in st.channels ensures SoloChannel(st, id) && ChannelInv(st, id) {}
    if st.publishers == map[] {
      forall id | id in st.subscribers && st.channels[id].since < st.published
        ensures var kept := Kept(st.channels[id]); kept != [] && kept[|kept| - 1] == st.published - 1 {
        assert SoloChannel(st, id);
        var queue, last := st.channels[id].queue, st.published - 1;
        assert queue != [] ==> CountsTo(queue, |queue| - 1, last);
      }
    }
  }

  // ---- Two publishers at a time ----

  lemma {:induction false} Prepend(st: State, e: Event, rest: seq<Event>)
    requires Enabled(st, e) && ValidTrace(Apply(st, e), rest)
    ensures ValidTrace(st, [e] + rest) && Run(st, [e] + rest) == Run(Apply(st, e), rest)
  {
    assert ([e] + rest)[1..] == rest;
  }

  /** The newest of two events published at once can be lost while older ones stay: whatever
      events a full queue holds, the two Publish calls can run so that the later one drops the
      oldest event and the earlier one takes the free place. */
  lemma {:induction false} NewestLoses(queue: seq<nat>, n: nat) returns (trace: seq<Event>)
    requires |queue| == CAP && Increasing(queue) && forall e | e in queue :: e < n
    ensures var st := State(map[0 := Channel(queue, [], false, 0)], {0}, 1, map[], n, false);
            && ValidTrace(st, trace)
            && Run(st, trace) == State(map[0 := Channel(queue[1..] + [n], [], false, 0)], {0}, 1, map[], n + 2, false)
  {
    var ch, after := Channel(queue, [], false, 0), Channel(queue[1..] + [n], [], false, 0);
    var s0 := State(map[0 := ch], {0}, 1, map[], n, false);
    var s1 := State(map[0 := ch], {0}, 1, map[0 := Publisher(n, [0], First)], n + 1, false);
    var s2 := State(map[0 := ch], {0}, 1, map[0 := Publisher(n, [0], First), 1 := Publisher(n + 1, [0], First)], n +
      2, false);
    var s3 := s2.(publishers := map[0 := Publisher(n, [0], First), 1 := Publisher(n + 1, [0], Drop)]);
    trace := Middle(queue, n);
    assert s3.publishers == map[0 := Publisher(n, [0], First)][1 := Publisher(n + 1, [0], Drop)];
    assert Apply(s2, TrySend(1)) == s3;
    Prepend(s2, TrySend(1), trace);
    trace := [TrySend(1)] + trace;
    assert Apply(s1, Begin(1, [0])) == s2;
    Prepend(s1, Begin(1, [0]), trace);
    trace := [Begin(1, [0])] + trace;
    assert Apply(s0, Begin(0, [0])) == s1;
    Prepend(s0, Begin(0, [0]), trace);
    trace := [Begin(0, [0])] + trace;
  }

  lemma {:induction false} Middle(queue: seq<nat>, n: nat) returns (trace: seq<Event>)
    requires |queue| == CAP
    ensures var st := State(map[0 := Channel(queue, [], false, 0)], {0}, 1,
                            map[0 := Publisher(n, [0], First), 1 := Publisher(n + 1, [0], Drop)], n + 2, false);
            && ValidTrace(st, trace)
            && Run(st, trace) == State(map[0 := Channel(queue[1..] + [n], [], false, 0)], {0}, 1, map[], n + 2, false)
  {
    var full, room, after := Channel(queue, [], false, 0), Channel(queue[1..], [], false, 0),
      Channel(queue[1..] + [n], [], false, 0);
    var a, a', b, b', b'' := Publisher(n, [0], First), Publisher(n, [], First), Publisher(n + 1, [0], Drop),
      Publisher(n + 1, [0], Again), Publisher(n + 1, [], First);
    var s0 := State(map[0 := full], {0}, 1, map[0 := a, 1 := b], n + 2, false);
    var s1 := State(map[0 := room], {0}, 1, map[0 := a, 1 := b'], n + 2, false);
    var s2 := State(map[0 := after], {0}, 1, map[0 := a', 1 := b'], n + 2, false);
    var s3 := State(map[0 := after], {0}, 1, map[0 := a', 1 := b''], n + 2, false);
    var s4 := State(map[0 := after], {0}, 1, map[1 := b''], n + 2, false);
    var s5 := State(map[0 := after], {0}, 1, map[], n + 2, false);
    assert [0][1..] == [];
    assert Apply(s0, DropOldest(1)) == s1;
    assert Apply(s1, TrySend(0)) == s2;
    assert Apply(s2, Retry(1)) == s3;
    assert Apply(s3, Finish(0)) == s4;
    assert Apply(s4, Finish(1)) == s5;
    trace := [Finish(1)] + [];
    Prepend(s4, Finish(1), []);
    Prepend(s3, Finish(0), trace);
    trace := [Finish(0)] + trace;
    Prepend(s2, Retry(1), trace);
    trace := [Retry(1)] + trace;
    Prepend(s1, TrySend(0), trace);
    trace := [TrySend(0)] + trace;
    Prepend(s0, DropOldest(1), trace);
    trace := [DropOldest(1)] + trace;
  }

  lemma {:induction false} RunConcat(st: State, a: seq<Event>, b: seq<Event>)
    requires ValidTrace(st, a) && ValidTrace(Run(st, a), b)
    ensures ValidTrace(st, a + b) && Run(st, a + b) == Run(Run(st, a), b)
    decreases |a|
  {
    if a == [] {
      assert a + b == b;
    } else {
      RunConcat(Apply(st, a[0]), a[1..], b);
      assert (a + b)[1..] == a[1..] + b;
    }
  }

  function UpTo(n: nat): seq<nat> {
    seq(n, i => i)
  }

  /** One subscriber that has received nothing of the first n events. */
  function Waiting(n: nat): State {
    State(map[0 := Channel(UpTo(n), [], false, 0)], {0}, 1, map[], n, false)
  }

  /** One uninterrupted Publish call into a queue with room. */
  lemma {:induction false} PublishOne(n: nat) returns (trace: seq<Event>)
    requires n < CAP
    ensures ValidTrace(Waiting(n), trace) && Run(Waiting(n), trace) == Waiting(n + 1)
  {
    var s0, s3 := Waiting(n), Waiting(n + 1);
    var s1 := s0.(publishers := map[0 := Publisher(n, [0], First)], published := n + 1);
    var s2 := s3.(publishers := map[0 := Publisher(n, [], First)]);
    assert UpTo(n + 1) == UpTo(n) + [n] && [0][1..] == [];
    assert Apply(s0, Begin(0, [0])) == s1;
    assert Apply(s1, TrySend(0)) == s2;
    assert Apply(s2, Finish(0)) == s3;
    Prepend(s2, Finish(0), []);
    Prepend(s1, TrySend(0), [Finish(0)] + []);
    trace := [TrySend(0)] + ([Finish(0)] + []);
    Prepend(s0, Begin(0, [0]), trace);
    trace := [Begin(0, [0])] + trace;
  }

  lemma {:induction false} Fill(n: nat) returns (trace: seq<Event>)
    requires n <= CAP
    ensures ValidTrace(Init(), trace) && Run(Init(), trace) == Waiting(n)
  {
    if n == 0 {
      trace := [Subscribe] + [];
      assert UpTo(0) == [];
      assert Apply(Init(), Subscribe) == Waiting(0);
      Prepend(Init(), Subscribe, []);
    } else {
      var before := Fill(n - 1);
      var one := PublishOne(n - 1);
      RunConcat(Init(), before, one);
      trace := before + one;
    }
  }

  /** So it does happen: from the start, with one subscriber that does not consume, a full
      queue, and two publishers at once. The older of the two events is the last kept. */
  lemma {:induction false} NewestIsLost() returns (trace: seq<Event>, st: State)
    ensures ValidTrace(Init(), trace) && st == Run(Init(), trace)
    ensures st.publishers == map[] && st.subscribers == {0} && 0 in st.channels && st.published == CAP + 2
    ensures Kept(st.channels[0]) == UpTo(CAP)[1..] + [CAP] && st.published - 1 !in Kept(st.channels[0])
  {
    var full := Fill(CAP);
    forall i, j | 0 <= i < j < CAP ensures Before(UpTo(CAP), i, j) {}
    var race := NewestLoses(UpTo(CAP), CAP);
    RunConcat(Init(), full, race);
    trace := full + race;
    st := Run(Init(), trace);
    forall x | x in UpTo(CAP)[1..] ensures x in UpTo(CAP) {}
  }

  // ---- When an event can be missing ----

  /** The first select of a Publish call finds this channel's queue full. */
  ghost predicate FindsFull(st: State, e: Event, id: int) {
    e.TrySend? && At(st, e.p, First) && st.publishers[e.p].left[0] == id && |st.channels[id].queue| >= CAP
  }

  ghost predicate FoundFull(st: State, trace: seq<Event>, id: int)
    requires ValidTrace(st, trace)
    decreases |trace|
  {
    trace != [] && (FindsFull(st, trace[0], id) || FoundFull(Apply(st, trace[0]), trace[1..], id))
  }

  /** Some Publish call under way has still to offer this event to the channel. */
  ghost predicate IsPending(st: State, event: nat, id: int) {
    exists p :: PendsAt(st, p, event, id)
  }

  ghost predicate PendsAt(st: State, p: int, event: nat, id: int) {
    p in st.publishers && st.publishers[p].event == event && id in st.publishers[p].left
  }

  /** Publisher p is not past its first select for this channel. */
  ghost predicate StillFirst(st: State, p: int, id: int)
    requires p in st.publishers
  {
    st.publishers[p].left != [] && st.publishers[p].left[0] == id ==> st.publishers[p].stage == First
  }

  ghost predicate Accounted(st: State, id: int, event: nat)
    requires id in st.channels
  {
    st.channels[id].since <= event < st.published ==> event in Kept(st.channels[id]) || IsPending(st, event, id)
  }

  /** Nothing offered to the open channel is missing. */
  ghost predicate NoneMissing(st: State, id: int) {
    id in st.subscribers && id in st.channels ==>
      && (forall p | p in st.publishers :: StillFirst(st, p, id))
      && (forall event: nat :: Accounted(st, id, event))
  }

  /** A pending event is still pending after a step, or the step has put it into the channel. */
  lemma {:induction false} StaysAccounted(st: State, e: Event, id: int, event: nat)
    requires Inv(st) && Enabled(st, e) && id in st.subscribers && id in st.channels && id in Apply(st, e).subscribers
    requires !FindsFull(st, e, id) && forall p | p in st.publishers :: StillFirst(st, p, id)
    requires Accounted(st, id, event)
    ensures Accounted(Apply(st, e), id, event)
  {
    var st' := Apply(st, e);
    if st.channels[id].since <= event < st.published && event !in Kept(st.channels[id]) {
      var q :| PendsAt(st, q, event, id);
      PendsOn(st, e, id, event, q);
    } else if event == st.published && e.Begin? {
      assert id in e.order;
      assert PendsAt(st', e.p, event, id);
    } else if event in Kept(st.channels[id]) {
      KeptStays(st, e, id, event);
    }
  }

  lemma {:induction false} KeptStays(st: State, e: Event, id: int, event: nat)
    requires Inv(st) && Enabled(st, e) && id in st.channels && event in Kept(st.channels[id])
    requires forall p | p in st.publishers :: StillFirst(st, p, id)
    ensures event in Kept(Apply(st, e).channels[id])
  {
    var ch := st.channels[id];
    if e.Receive? && e.id == id {
      assert Kept(Apply(st, e).channels[id]) == Kept(ch);
    } else if e.TrySend? && st.publishers[e.p].left[0] == id {
      assert Kept(Pushed(ch, st.publishers[e.p].event)) == Kept(ch) + [st.publishers[e.p].event];
    } else if e.DropOldest? || e.Retry? {
      assert StillFirst(st, e.p, id);
    }
  }

  lemma {:induction false} PendsOn(st: State, e: Event, id: int, event: nat, q: int)
    requires Inv(st) && Enabled(st, e) && id in st.channels && PendsAt(st, q, event, id) && !FindsFull(st, e, id)
    requires forall p | p in st.publishers :: StillFirst(st, p, id)
    ensures PendsAt(Apply(st, e), q, event, id) || event in Kept(Apply(st, e).channels[id])
  {
    assert StillFirst(st, q, id);
    if e.TrySend? {
      SendInv(st, e.p);
      if e.p == q && st.publishers[q].left[0] == id {
        assert Kept(Pushed(st.channels[id], event)) == Kept(st.channels[id]) + [event];
      }
    }
  }

  lemma {:induction false} StepMissesNone(st: State, e: Event, id: int)
    requires Inv(st) && Enabled(st, e) && NoneMissing(st, id) && !FindsFull(st, e, id)
    ensures NoneMissing(Apply(st, e), id)
  {
    var st' := Apply(st, e);
    if id in st'.subscribers && id in st'.channels && id in st.subscribers && id in st.channels {
      forall p | p in st'.publishers ensures StillFirst(st', p, id) {
        if p in st.publishers { assert StillFirst(st, p, id); }
      }
      forall event: nat ensures Accounted(st', id, event) {
        assert Accounted(st, id, event);
        StaysAccounted(st, e, id, event);
      }
    }
  }

  lemma {:induction false} RunMissesNone(st: State, trace: seq<Event>, id: int)
    requires Inv(st) && ValidTrace(st, trace) && NoneMissing(st, id) && !FoundFull(st, trace, id)
    ensures NoneMissing(Run(st, trace), id)
    decreases |trace|
  {
    if trace != [] {
      StepInv(st, trace[0]);
      StepMissesNone(st, trace[0], id);
      RunMissesNone(Apply(st, trace[0]), trace[1..], id);
    }
  }

  /** With any number of publishers: an event published since the subscription that no Publish
      call has still to offer is missing from an open channel only if some call's first select
      found its queue full. */
  lemma {:induction false} MissingOnlyIfFull(trace: seq<Event>, st: State, id: int, event: nat)
    requires ValidTrace(Init(), trace) && st == Run(Init(), trace) && id in st.subscribers && id in st.channels
    requires st.channels[id].since <= event < st.published && !IsPending(st, event, id)
    ensures event !in Kept(st.channels[id]) ==> FoundFull(Init(), trace, id)
  {
    if !FoundFull(Init(), trace, id) {
      RunMissesNone(Init(), trace, id);
      assert Accounted(st, id, event);
    }
  }

  // ---- The broker's critical sections ----

  /** What an uninterrupted Publish leaves in one queue: the event is last, and the oldest one
      made room for it if there was none. */
  function Shipped(queue: seq<nat>, event: nat): seq<nat> {
    if |queue| < CAP then queue + [event] else queue[1..] + [event]
  }

  class ActivityBroker {
    var channels: map<int, Channel>
    var subscribers: set<int>
    var nextId: int
    var publishers: map<int, Publisher>
    var published: nat
    var panicked: bool

    ghost function View(): State
      reads this
    {
      State(channels, subscribers, nextId, publishers, published, panicked)
    }

    constructor ()
      ensures View() == Init()
    {
      channels, subscribers, nextId, publishers, published, panicked := map[], {}, 0, map[], 0, false;
    }

    method AddSubscriber() returns (id: int)
      requires Enabled(View(), Subscribe)
      modifies this
      ensures View() == Apply(old(View()), Subscribe) && id == old(nextId)
    {
      id := nextId;
      nextId := nextId + 1;
      channels := channels[id := Channel([], [], false, published)];
      subscribers := subscribers + {id};
    }

    /** The cancel function that Subscribe returns; it may be called again. */
    method CancelSubscription(id: int)
      requires Enabled(View(), Cancel(id))
      modifies this
      ensures View() == Apply(old(View()), Cancel(id))
    {
      if id in subscribers {
        subscribers := subscribers - {id};
        panicked := panicked || channels[id].closed;
        channels := channels[id := channels[id].(closed := true)];
      }
    }

    method BeginPublish(p: int) returns (event: nat, order: seq<int>)
      requires p !in publishers
      modifies this
      ensures Enabled(old(View()), Begin(p, order)) && View() == Apply(old(View()), Begin(p, order)) &&
              event == old(published)
    {
      event := published;
      order := ListKeys(subscribers);
      publishers := publishers[p := Publisher(event, order, First)];
      published := published + 1;
    }

    /** The first or the third select: a non-blocking send. */
    method Send(p: int)
      requires Enabled(View(), TrySend(p)) || Enabled(View(), Retry(p))
      modifies `channels, `publishers, `panicked
      ensures View() == Apply(old(View()), if old(publishers)[p].stage == First then TrySend(p) else Retry(p))
    {
      var pub := publishers[p];
      var id := pub.left[0];
      var ch := channels[id];
      if ch.closed {
        panicked := true;
      } else if |ch.queue| < CAP {
        channels := channels[id := ch.(queue := ch.queue + [pub.event])];
        publishers := publishers[p := pub.(left := pub.left[1..], stage := First)];
      } else if pub.stage == First {
        publishers := publishers[p := pub.(stage := Drop)];
      } else {
        publishers := publishers[p := pub.(left := pub.left[1..], stage := First)];
      }
    }

    /** The second select: a non-blocking receive. */
    method MakeRoom(p: int)
      requires Enabled(View(), DropOldest(p))
      modifies `channels, `publishers, `panicked
      ensures View() == Apply(old(View()), DropOldest(p))
    {
      var pub := publishers[p];
      var ch := channels[pub.left[0]];
      if ch.queue != [] {
        ch := ch.(queue := ch.queue[1..]);
      }
      channels := channels[pub.left[0] := ch];
      publishers := publishers[p := pub.(stage := Again)];
    }

    method Return(p: int)
      requires Enabled(View(), Finish(p))
      modifies `publishers
      ensures View() == Apply(old(View()), Finish(p))
    {
      publishers := publishers - {p};
    }

    method Next(id: int) returns (event: nat)
      requires Enabled(View(), Receive(id))
      modifies this
      ensures View() == Apply(old(View()), Receive(id)) && event == old(channels)[id].queue[0]
    {
      var ch := channels[id];
      event := ch.queue[0];
      channels := channels[id := ch.(queue := ch.queue[1..], received := ch.received + [event])];
    }

    /** What Inv says about a subscribed channel. */
    ghost predicate IsOpen(id: int)
      reads this
    {
      id in channels && !channels[id].closed && |channels[id].queue| <= CAP
    }

    /** The three selects for one channel, uninterrupted. */
    method Ship(p: int)
      requires Enabled(View(), TrySend(p)) && IsOpen(publishers[p].left[0])
      modifies `channels, `publishers, `panicked
      ensures var Publisher(event, left, _) := old(publishers)[p];
              && channels == old(channels)[left[0] :=
                 old(channels)[left[0]].(queue := Shipped(old(channels)[left[0]].queue, event))]
              && publishers == old(publishers)[p := Publisher(event, left[1..], First)]
              && panicked == old(panicked)
    {
      Send(p);
      if publishers[p].stage == Drop {
        MakeRoom(p);
        Send(p);
      }
    }

    /** A Publish call that nothing interrupts. */
    method Publish(p: int)
      requires p !in publishers && forall id | id in subscribers :: IsOpen(id)
      modifies this
      ensures published == old(published) + 1 && subscribers == old(subscribers) && publishers == old(publishers) &&
              panicked == old(panicked)
      ensures channels.Keys == old(channels).Keys
      ensures forall id | id in channels ::
        channels[id] == if id in subscribers then
          old(channels)[id].(queue := Shipped(old(channels)[id].queue, old(published)))
        else old(channels)[id]
    {
      var event, order := BeginPublish(p);
      ghost var k := 0;
      while publishers[p].left != []
        invariant k <= |order| && p in publishers && publishers[p] == Publisher(event, order[k..], First) &&
                  publishers - {p} == old(publishers)
        invariant published == old(published) + 1 && subscribers == old(subscribers) && panicked == old(panicked)
        invariant channels.Keys == old(channels).Keys
        invariant forall id | id in channels ::
          channels[id] == if id in order[..k] then old(channels)[id].(queue := Shipped(old(channels)[id].queue, event))
            else old(channels)[id]
        decreases |publishers[p].left|
      {
        assert order[k] in subscribers && old(IsOpen(order[k]));
        assert order[..k + 1] == order[..k] + [order[k]];
        Ship(p);
        k := k + 1;
      }
      Return(p);
      assert order[..k] == order;
    }
  }
}
