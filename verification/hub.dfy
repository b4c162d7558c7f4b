/** sse.Hub: a registry of channels by topic behind a read-write lock. The first
    half is the hub's three operations; the second interleaves them as a
    protocol of publishers, subscribers and receivers. */
module Hub {

  /** The n-th event that one publisher sends. */
  datatype Event = Event(topic: string, publisher: nat, n: nat, payload: int)

  /** A buffered channel. */
  datatype Chan = Chan(capacity: nat, queue: seq<Event>, closed: bool)

  /** Topic to the ids of its channels. */
  type Subs = map<string, set<nat>>

  function Channels(subs: Subs, topic: string): set<nat> {
    if topic in subs then subs[topic] else {}
  }

  /** The registration loop. */
  function Registered(subs: Subs, topics: seq<string>, id: nat): Subs {
    if topics == [] then subs
    else
      var s, t := Registered(subs, topics[..|topics| - 1], id), topics[|topics| - 1];
      s[t := Channels(s, t) + {id}]
  }

  function Without(subs: Subs, topic: string, id: nat): Subs {
    if topic !in subs then subs
    else if subs[topic] - {id} == {} then subs - {topic}
    else subs[topic := subs[topic] - {id}]
  }

  /** The removal loop; a topic without channels is dropped. */
  function Unregistered(subs: Subs, topics: seq<string>, id: nat): Subs {
    if topics == [] then subs
    else Without(Unregistered(subs, topics[..|topics| - 1], id), topics[|topics| - 1], id)
  }

  /** A non-blocking send: a full channel drops the event. */
  function Offer(c: Chan, e: Event): Chan {
    if |c.queue| < c.capacity then c.(queue := c.queue + [e]) else c
  }

  predicate NoEmptyTopic(subs: Subs) {
    forall t :: t in subs ==> subs[t] != {}
  }

  /** Who is subscribed to what after registering. */
  lemma {:induction false} RegisteredChannels(subs: Subs, topics: seq<string>, id: nat, t: string)
    ensures Channels(Registered(subs, topics, id), t) == Channels(subs, t) + (if t in topics then {id} else {})
    ensures NoEmptyTopic(subs) ==> NoEmptyTopic(Registered(subs, topics, id))
  {
    if topics != [] {
      var init := topics[..|topics| - 1];
      assert topics == init + [topics[|topics| - 1]];
      RegisteredChannels(subs, init, id, t);
    }
  }

  lemma {:induction false} UnregisteredChannels(subs: Subs, topics: seq<string>, id: nat, t: string)
    ensures Channels(Unregistered(subs, topics, id), t) == Channels(subs, t) - (if t in topics then {id} else {})
    ensures NoEmptyTopic(subs) ==> NoEmptyTopic(Unregistered(subs, topics, id))
  {
    if topics != [] {
      var init := topics[..|topics| - 1];
      assert topics == init + [topics[|topics| - 1]];
      UnregisteredChannels(subs, init, id, t);
    }
  }

  class Hub {
    var nextId: nat
    var subs: Subs
    var chans: map<nat, Chan>

    constructor ()
      ensures nextId == 0 && subs == map[] && chans == map[]
    {
      nextId, subs, chans := 0, map[], map[];
    }

    method Subscribe(buffer: nat, topics: seq<string>) returns (id: nat)
      modifies this
      ensures id == old(nextId) + 1 && nextId == id
      ensures chans == old(chans)[id := Chan(buffer, [], false)]
      ensures subs == Registered(old(subs), topics, id)
    {
      nextId := nextId + 1;
      id := nextId;
      chans := chans[id := Chan(buffer, [], false)];
      for i := 0 to |topics|
        invariant nextId == id && chans == old(chans)[id := Chan(buffer, [], false)]
        invariant subs == Registered(old(subs), topics[..i], id)
      {
        assert topics[..i + 1][..i] == topics[..i];
        var t := topics[i];
        if t !in subs {
          subs := subs[t := {}];
        }
        subs := subs[t := subs[t] + {id}];
      }
      assert topics[..|topics|] == topics;
    }

    /** The closure that Subscribe returns; closing a closed channel panics. */
    method Unsubscribe(id: nat, topics: seq<string>) returns (panics: bool)
      requires id in chans
      modifies this
      ensures panics <==> old(chans)[id].closed
      ensures subs == Unregistered(old(subs), topics, id) && nextId == old(nextId)
      ensures chans == old(chans)[id := old(chans)[id].(closed := true)]
    {
      for i := 0 to |topics|
        invariant nextId == old(nextId) && chans == old(chans)
        invariant subs == Unregistered(old(subs), topics[..i], id)
      {
        assert topics[..i + 1][..i] == topics[..i];
        var t := topics[i];
        if t in subs {
          var m := subs[t] - {id};
          if m == {} {
            subs := subs - {t};
          } else {
            subs := subs[t := m];
          }
        }
      }
      assert topics[..|topics|] == topics;
      panics := chans[id].closed;
      chans := chans[id := chans[id].(closed := true)];
    }

    /** Offers the event to each channel of its topic once; sending on a closed
        channel panics. */
    method Publish(e: Event) returns (panics: bool)
      requires Channels(subs, e.topic) <= chans.Keys
      modifies this`chans
      ensures panics <==> exists id :: id in Channels(subs, e.topic) && old(chans)[id].closed
      ensures chans.Keys == old(chans).Keys
      ensures forall id :: id in chans ==> chans[id].capacity == old(chans)[id].capacity && chans[id].closed == old(chans)[id].closed
      ensures !panics ==> forall id :: id in chans ==>
                chans[id].queue == old(chans)[id].queue
                                   + (if id in Channels(subs, e.topic) && |old(chans)[id].queue| < old(chans)[id].capacity then [e] else [])
    {
      panics := false;
      var todo := Channels(subs, e.topic);
      while todo != {}
        invariant todo <= Channels(subs, e.topic) && chans.Keys == old(chans).Keys
        invariant forall id :: id in Channels(subs, e.topic) - todo ==> !old(chans)[id].closed
        invariant forall id :: id in chans ==>
          chans[id] == if id in Channels(subs, e.topic) && id !in todo then Offer(old(chans)[id], e) else old(chans)[id]
      {
        var id :| id in todo;
        var c := chans[id];
        if c.closed {
          panics := true;
          return;
        }
        if |c.queue| < c.capacity {
          chans := chans[id := c.(queue := c.queue + [e])];
        }
        todo := todo - {id};
      }
    }
  }

  /* ---------- the protocol ---------- */

  /** A publisher inside Publish: its event, and the channels it has yet to offer it to. */
  datatype Reader = Reader(event: Event, remaining: set<nat>)

  /** A subscriber's unsubscribe: how often it was called, and how many of those
      calls have yet to close the channel. */
  datatype Exit = Exit(calls: nat, closing: nat)

  datatype State = State(
    subs: Subs,
    chans: map<nat, Chan>,
    topics: map<nat, seq<string>>,
    exits: map<nat, Exit>,
    received: map<nat, seq<Event>>,
    readers: map<nat, Reader>,
    published: map<nat, seq<Event>>,
    panicked: bool)

  const START: State := State(map[], map[], map[], map[], map[], map[], map[], false)

  /** Steps that hold the write lock need the lock free of readers. */
  datatype Action =
    | Create(id: nat, buffer: nat, topics: seq<string>)
    | Register(id: nat)
    | Remove(id: nat)
    | Close(id: nat)
    | Enter(publisher: nat, topic: string, payload: int)
    | Send(publisher: nat, id: nat)
    | Leave(publisher: nat)
    | Receive(id: nat)

  function Sent(s: State, p: nat): seq<Event> {
    if p in s.published then s.published[p] else []
  }

  /** `calls` is how often one subscriber may call its unsubscribe function. A
      channel is registered before its unsubscribe function is returned. */
  predicate Enabled(s: State, a: Action, calls: nat) {
    match a
    case Create(id, _, _) => id !in s.chans
    case Register(id) => id in s.chans && id in s.topics && id !in s.exits && s.readers == map[]
    case Remove(id) => id in s.chans && id in s.topics && id in s.exits && s.exits[id].calls < calls && s.readers == map[]
    case Close(id) => id in s.chans && id in s.exits && s.exits[id].closing > 0
    case Enter(p, _, _) => p !in s.readers
    case Send(p, id) => p in s.readers && id in s.readers[p].remaining
    case Leave(p) => p in s.readers && s.readers[p].remaining == {}
    case Receive(id) => id in s.chans && id in s.received && s.chans[id].queue != []
  }

  function Next(s: State, a: Action, calls: nat): State
    requires Enabled(s, a, calls)
  {
    match a
    case Create(id, buffer, topics) =>
      s.(chans := s.chans[id := Chan(buffer, [], false)], topics := s.topics[id := topics], received := s.received[id := []])
    case Register(id) =>
      s.(subs := Registered(s.subs, s.topics[id], id), exits := s.exits[id := Exit(0, 0)])
    case Remove(id) =>
      s.(subs := Unregistered(s.subs, s.topics[id], id),
         exits := s.exits[id := Exit(s.exits[id].calls + 1, s.exits[id].closing + 1)])
    case Close(id) =>
      s.(panicked := s.panicked || s.chans[id].closed,
         chans := s.chans[id := s.chans[id].(closed := true)],
         exits := s.exits[id := s.exits[id].(closing := s.exits[id].closing - 1)])
    case Enter(p, topic, payload) =>
      var e := Event(topic, p, |Sent(s, p)|, payload);
      s.(readers := s.readers[p := Reader(e, Channels(s.subs, topic))], published := s.published[p := Sent(s, p) + [e]])
    case Send(p, id) =>
      var r := s.readers[p];
      s.(readers := s.readers[p := r.(remaining := r.remaining - {id})],
         panicked := s.panicked || id !in s.chans || s.chans[id].closed,
         chans := if id in s.chans then s.chans[id := Offer(s.chans[id], r.event)] else s.chans)
    case Leave(p) => s.(readers := s.readers - {p})
    case Receive(id) =>
      var c := s.chans[id];
      s.(chans := s.chans[id := c.(queue := c.queue[1..])], received := s.received[id := s.received[id] + [c.queue[0]]])
  }

  ghost predicate Trace(states: seq<State>, actions: seq<Action>, calls: nat) {
    && |states| == |actions| + 1 && states[0] == START
    && forall i :: 0 <= i < |actions| ==> Enabled(states[i], actions[i], calls) && states[i + 1] == Next(states[i], actions[i], calls)
  }

  /* ---------- safety ---------- */

  /** A registered channel is open, and its unsubscribe has not been called. */
  ghost predicate RegistryOK(s: State) {
    && NoEmptyTopic(s.subs)
    && (forall t, id :: id in Channels(s.subs, t) ==> ListedOK(s, t, id))
    && (forall id :: id in s.topics ==> id in s.chans)
    && (forall id :: id in s.exits ==> id in s.chans && s.exits[id].closing <= s.exits[id].calls <= 1)
    && (forall id :: id in s.chans && s.chans[id].closed ==> id in s.exits && s.exits[id] == Exit(1, 0))
    && (forall p :: p in s.readers ==> s.readers[p].remaining <= Channels(s.subs, s.readers[p].event.topic))
  }

  predicate ListedOK(s: State, topic: string, id: nat) {
    id in s.chans && id in s.topics && topic in s.topics[id] && id in s.exits && s.exits[id].calls == 0
  }

  /** No queue exceeds its buffer. */
  predicate BuffersOK(s: State) {
    forall id :: id in s.chans ==> |s.chans[id].queue| <= s.chans[id].capacity
  }

  function Delivered(s: State, id: nat): seq<Event> {
    (if id in s.received then s.received[id] else []) + (if id in s.chans then s.chans[id].queue else [])
  }

  /** An ascending choice of published events, publisher by publisher. */
  ghost predicate Subsequence(es: seq<Event>, published: map<nat, seq<Event>>) {
    && (forall i :: 0 <= i < |es| ==> Genuine(es[i], published))
    && (forall i, j :: 0 <= i < j < |es| && es[i].publisher == es[j].publisher ==> es[i].n < es[j].n)
  }

  predicate Genuine(e: Event, published: map<nat, seq<Event>>) {
    e.publisher in published && e.n < |published[e.publisher]| && published[e.publisher][e.n] == e
  }

  ghost predicate OrderOK(s: State) {
    && s.received.Keys == s.chans.Keys
    && (forall id :: id in s.chans ==> Subsequence(Delivered(s, id), s.published))
    && (forall p :: p in s.readers ==> ReaderOK(s, p, s.readers[p]))
  }

  /** A publisher's event is its latest, and has not reached the channels that remain. */
  ghost predicate ReaderOK(s: State, p: nat, r: Reader) {
    && Genuine(r.event, s.published) && r.event.publisher == p && r.event.n == |s.published[p]| - 1
    && forall id, i :: id in r.remaining && id in s.chans && 0 <= i < |Delivered(s, id)| && Delivered(s, id)[i].publisher == p
         ==> Delivered(s, id)[i].n < r.event.n
  }

  ghost predicate Safe(s: State) {
    !s.panicked && RegistryOK(s) && BuffersOK(s) && OrderOK(s)
  }

  /** The steps under the write lock, when no publisher is inside. */
  lemma RegisterStep(s: State, a: Action)
    requires !s.panicked && RegistryOK(s) && Enabled(s, a, 1) && a.Register?
    ensures RegistryOK(Next(s, a, 1)) && !Next(s, a, 1).panicked
  {
    forall t {
      RegisteredChannels(s.subs, s.topics[a.id], a.id, t);
    }
    RegisteredChannels(s.subs, s.topics[a.id], a.id, "");
  }

  lemma RemoveStep(s: State, a: Action)
    requires !s.panicked && RegistryOK(s) && Enabled(s, a, 1) && a.Remove?
    ensures RegistryOK(Next(s, a, 1)) && !Next(s, a, 1).panicked
  {
    forall t {
      UnregisteredChannels(s.subs, s.topics[a.id], a.id, t);
    }
    UnregisteredChannels(s.subs, s.topics[a.id], a.id, "");
  }

  lemma CreateStep(s: State, a: Action)
    requires !s.panicked && RegistryOK(s) && Enabled(s, a, 1) && a.Create?
    ensures RegistryOK(Next(s, a, 1)) && !Next(s, a, 1).panicked
  {
    var s' := Next(s, a, 1);
    forall t, id | id in Channels(s'.subs, t)
      ensures ListedOK(s', t, id)
    {
      assert ListedOK(s, t, id);
    }
  }

  /** A channel is closed only by the one unsubscribe that has removed it. */
  lemma CloseStep(s: State, a: Action)
    requires !s.panicked && RegistryOK(s) && Enabled(s, a, 1) && a.Close?
    ensures RegistryOK(Next(s, a, 1)) && !Next(s, a, 1).panicked
  {}

  /** Only which channels are open matters, not what they hold. */
  lemma SameRegistry(s: State, s': State)
    requires RegistryOK(s)
    requires s'.subs == s.subs && s'.topics == s.topics && s'.exits == s.exits && s'.chans.Keys == s.chans.Keys
    requires forall id :: id in s.chans ==> s'.chans[id].closed == s.chans[id].closed
    requires forall p :: p in s'.readers ==> s'.readers[p].remaining <= Channels(s'.subs, s'.readers[p].event.topic)
    ensures RegistryOK(s')
  {
    assert forall id :: id in s'.chans <==> id in s.chans;
  }

  lemma SendRegistry(s: State, a: Action)
    requires !s.panicked && RegistryOK(s) && Enabled(s, a, 1) && a.Send?
    ensures RegistryOK(Next(s, a, 1)) && !Next(s, a, 1).panicked
  {
    assert a.id in Channels(s.subs, s.readers[a.publisher].event.topic);
    SameRegistry(s, Next(s, a, 1));
  }

  lemma EnterRegistry(s: State, a: Action)
    requires !s.panicked && RegistryOK(s) && Enabled(s, a, 1) && a.Enter?
    ensures RegistryOK(Next(s, a, 1)) && !Next(s, a, 1).panicked
  {
    SameRegistry(s, Next(s, a, 1));
  }

  lemma LeaveRegistry(s: State, a: Action)
    requires !s.panicked && RegistryOK(s) && Enabled(s, a, 1) && a.Leave?
    ensures RegistryOK(Next(s, a, 1)) && !Next(s, a, 1).panicked
  {
    SameRegistry(s, Next(s, a, 1));
  }

  lemma ReceiveStep(s: State, a: Action)
    requires !s.panicked && RegistryOK(s) && Enabled(s, a, 1) && a.Receive?
    ensures RegistryOK(Next(s, a, 1)) && !Next(s, a, 1).panicked
  {
    SameRegistry(s, Next(s, a, 1));
  }

  lemma RegistryStep(s: State, a: Action)
    requires !s.panicked && RegistryOK(s) && Enabled(s, a, 1)
    ensures RegistryOK(Next(s, a, 1)) && !Next(s, a, 1).panicked
  {
    match a
    case Create(_, _, _) => CreateStep(s, a);
    case Register(_) => RegisterStep(s, a);
    case Remove(_) => RemoveStep(s, a);
    case Close(_) => CloseStep(s, a);
    case Enter(_, _, _) => EnterRegistry(s, a);
    case Send(_, _) => SendRegistry(s, a);
    case Leave(_) => LeaveRegistry(s, a);
    case Receive(_) => ReceiveStep(s, a);
  }

  lemma BuffersStep(s: State, a: Action)
    requires BuffersOK(s) && Enabled(s, a, 1)
    ensures BuffersOK(Next(s, a, 1))
  {}

  lemma QuietDelivered(s: State, a: Action, id: nat)
    requires s.received.Keys == s.chans.Keys && Enabled(s, a, 1) && !a.Enter? && !a.Send? && id in Next(s, a, 1).chans
    ensures Delivered(Next(s, a, 1), id) == if id in s.chans then Delivered(s, id) else []
  {
    if a.Receive? && a.id == id {
      Received(s.received[id], s.chans[id].queue);
    }
  }

  lemma Received(past: seq<Event>, queue: seq<Event>)
    requires queue != []
    ensures (past + [queue[0]]) + queue[1..] == past + queue
  {
    assert queue == [queue[0]] + queue[1..];
  }

  /** Steps that neither publish nor deliver. */
  lemma QuietStep(s: State, a: Action)
    requires OrderOK(s) && Enabled(s, a, 1) && !a.Enter? && !a.Send?
    requires forall p :: p in s.readers ==> s.readers[p].remaining <= s.chans.Keys
    ensures OrderOK(Next(s, a, 1))
  {
    var s' := Next(s, a, 1);
    forall id | id in s'.chans
      ensures Subsequence(Delivered(s', id), s'.published)
    {
      QuietChannel(s, a, id);
    }
    forall p | p in s'.readers
      ensures ReaderOK(s', p, s'.readers[p])
    {
      QuietReader(s, a, p);
    }
  }

  lemma QuietChannel(s: State, a: Action, id: nat)
    requires OrderOK(s) && Enabled(s, a, 1) && !a.Enter? && !a.Send? && id in Next(s, a, 1).chans
    ensures Subsequence(Delivered(Next(s, a, 1), id), Next(s, a, 1).published)
  {
    QuietDelivered(s, a, id);
  }

  lemma QuietReader(s: State, a: Action, p: nat)
    requires OrderOK(s) && Enabled(s, a, 1) && !a.Enter? && !a.Send? && p in Next(s, a, 1).readers
    requires s.readers[p].remaining <= s.chans.Keys
    ensures ReaderOK(Next(s, a, 1), p, Next(s, a, 1).readers[p])
  {
    var s' := Next(s, a, 1);
    assert ReaderOK(s, p, s.readers[p]);
    forall id | id in s'.chans {
      QuietDelivered(s, a, id);
    }
  }

  lemma EnterStep(s: State, a: Action)
    requires OrderOK(s) && Enabled(s, a, 1) && a.Enter?
    ensures OrderOK(Next(s, a, 1))
  {
    var s' := Next(s, a, 1);
    forall e | Genuine(e, s.published)
      ensures Genuine(e, s'.published)
    {}
    forall id | id in s.chans
      ensures Delivered(s', id) == Delivered(s, id) && Subsequence(Delivered(s, id), s'.published)
    {}
  }

  /** A send puts the event into a channel that has room, and drops it otherwise. */
  lemma SendDelivers(s: State, a: Action)
    requires OrderOK(s) && Enabled(s, a, 1) && a.Send? && a.id in s.chans
    ensures var c, e := s.chans[a.id], s.readers[a.publisher].event;
            Delivered(Next(s, a, 1), a.id) == Delivered(s, a.id) + (if |c.queue| < c.capacity then [e] else [])
    ensures Subsequence(Delivered(Next(s, a, 1), a.id), s.published)
    ensures forall id :: id in s.chans && id != a.id ==> Delivered(Next(s, a, 1), id) == Delivered(s, id)
  {
    var r := s.readers[a.publisher];
    assert ReaderOK(s, a.publisher, r);
    SendAppends(s, a);
    SubsequenceSnoc(Delivered(s, a.id), r.event, s.published);
  }

  lemma SendAppends(s: State, a: Action)
    requires Enabled(s, a, 1) && a.Send? && a.id in s.chans && s.received.Keys == s.chans.Keys
    ensures var c, e := s.chans[a.id], s.readers[a.publisher].event;
            Delivered(Next(s, a, 1), a.id) == Delivered(s, a.id) + (if |c.queue| < c.capacity then [e] else [])
  {
    var c, e := s.chans[a.id], s.readers[a.publisher].event;
    assert s.received[a.id] + (c.queue + [e]) == (s.received[a.id] + c.queue) + [e];
    assert Delivered(s, a.id) + [] == Delivered(s, a.id);
  }

  lemma SubsequenceSnoc(es: seq<Event>, e: Event, published: map<nat, seq<Event>>)
    requires Subsequence(es, published) && Genuine(e, published)
    requires forall i :: 0 <= i < |es| && es[i].publisher == e.publisher ==> es[i].n < e.n
    ensures Subsequence(es + [e], published)
  {}

  lemma SendStep(s: State, a: Action)
    requires OrderOK(s) && Enabled(s, a, 1) && a.Send? && a.id in s.chans
    ensures OrderOK(Next(s, a, 1))
  {
    var s' := Next(s, a, 1);
    SendDelivers(s, a);
    forall p | p in s'.readers
      ensures ReaderOK(s', p, s'.readers[p])
    {
      SendKeepsReader(s, a, p);
    }
  }

  lemma SendKeepsReader(s: State, a: Action, p: nat)
    requires OrderOK(s) && Enabled(s, a, 1) && a.Send? && a.id in s.chans && p in s.readers
    ensures ReaderOK(Next(s, a, 1), p, Next(s, a, 1).readers[p])
  {
    if p == a.publisher {
      SendKeepsSender(s, a);
    } else {
      SendKeepsOther(s, a, p);
    }
  }

  lemma SendKeepsSender(s: State, a: Action)
    requires OrderOK(s) && Enabled(s, a, 1) && a.Send? && a.id in s.chans
    ensures ReaderOK(Next(s, a, 1), a.publisher, Next(s, a, 1).readers[a.publisher])
  {
    SendDelivers(s, a);
    assert ReaderOK(s, a.publisher, s.readers[a.publisher]);
  }

  lemma SendKeepsOther(s: State, a: Action, p: nat)
    requires OrderOK(s) && Enabled(s, a, 1) && a.Send? && a.id in s.chans && p in s.readers && p != a.publisher
    ensures ReaderOK(Next(s, a, 1), p, Next(s, a, 1).readers[p])
  {
    SendDelivers(s, a);
    assert ReaderOK(s, p, s.readers[p]) && ReaderOK(s, a.publisher, s.readers[a.publisher]);
  }

  lemma StepIsSafe(s: State, a: Action)
    requires Safe(s) && Enabled(s, a, 1)
    ensures Safe(Next(s, a, 1))
  {
    RegistryStep(s, a);
    BuffersStep(s, a);
    if a.Enter? {
      EnterStep(s, a);
    } else if a.Send? {
      var r := s.readers[a.publisher];
      assert a.id in Channels(s.subs, r.event.topic);
      SendStep(s, a);
    } else {
      QuietStep(s, a);
    }
  }

  lemma {:induction false} TraceIsSafe(states: seq<State>, actions: seq<Action>, calls: nat, n: nat)
    requires Trace(states, actions, calls) && calls <= 1 && n < |states|
    ensures Safe(states[n])
  {
    if n > 0 {
      TraceIsSafe(states, actions, calls, n - 1);
      EnabledOnce(states[n - 1], actions[n - 1], calls);
      StepIsSafe(states[n - 1], actions[n - 1]);
    }
  }

  lemma EnabledOnce(s: State, a: Action, calls: nat)
    requires Enabled(s, a, calls) && calls <= 1
    ensures Enabled(s, a, 1) && Next(s, a, 1) == Next(s, a, calls)
  {}

  /* ---------- delivery ---------- */

  /** What has reached a channel, or its receiver, stays. */
  lemma DeliveredGrows(s: State, a: Action, id: nat)
    requires Safe(s) && Enabled(s, a, 1) && id in s.chans
    ensures id in Next(s, a, 1).chans && Delivered(s, id) <= Delivered(Next(s, a, 1), id)
  {
    if a.Send? {
      assert a.id in Channels(s.subs, s.readers[a.publisher].event.topic) && ListedOK(s, s.readers[a.publisher].event.topic, a.id);
      SendDelivers(s, a);
    } else if !a.Enter? {
      QuietDelivered(s, a, id);
    }
  }

  /** Publisher p is inside Publish with event e, and has dealt with the channel or
      is still to do so; `full` says that the channel was full when it did. */
  predicate Offering(s: State, p: nat, e: Event, id: nat, full: bool) {
    && p in s.readers && s.readers[p].event == e && id in s.chans
    && (id in s.readers[p].remaining || e in Delivered(s, id) || full)
  }

  /** The send that finds the channel full. */
  predicate Drops(s: State, a: Action, p: nat, id: nat) {
    a == Send(p, id) && id in s.chans && |s.chans[id].queue| >= s.chans[id].capacity
  }

  lemma OfferingStep(s: State, a: Action, p: nat, e: Event, id: nat, full: bool)
    requires Safe(s) && Enabled(s, a, 1) && a != Leave(p) && Offering(s, p, e, id, full)
    ensures Offering(Next(s, a, 1), p, e, id, full || Drops(s, a, p, id))
  {
    DeliveredGrows(s, a, id);
    if a == Send(p, id) {
      SendAppends(s, a);
    } else {
      OtherKeepsReader(s, a, p, id);
    }
  }

  /** Nobody else ends a publisher's call, or skips a channel for it. */
  lemma OtherKeepsReader(s: State, a: Action, p: nat, id: nat)
    requires Enabled(s, a, 1) && a != Leave(p) && a != Send(p, id) && p in s.readers
    ensures p in Next(s, a, 1).readers && Next(s, a, 1).readers[p].event == s.readers[p].event
    ensures id in s.readers[p].remaining ==> id in Next(s, a, 1).readers[p].remaining
  {}

  /** The channel was full at a send of p from the i-th action on and before the n-th. */
  ghost predicate WasFull(states: seq<State>, actions: seq<Action>, i: nat, n: nat, p: nat, id: nat)
    requires n <= |actions| && n <= |states|
  {
    exists m :: i < m < n && Drops(states[m], actions[m], p, id)
  }

  lemma {:induction false} OfferingAt(states: seq<State>, actions: seq<Action>, calls: nat, i: nat, n: nat, id: nat)
    requires Trace(states, actions, calls) && calls <= 1 && i < n <= |actions| && actions[i].Enter?
    requires forall m :: i < m < n ==> actions[m] != Leave(actions[i].publisher)
    requires id in Channels(states[i].subs, actions[i].topic)
    ensures var p := actions[i].publisher;
            Offering(states[n], p, Event(actions[i].topic, p, |Sent(states[i], p)|, actions[i].payload), id,
                     WasFull(states, actions, i, n, p, id))
    decreases n
  {
    var p := actions[i].publisher;
    var e := Event(actions[i].topic, p, |Sent(states[i], p)|, actions[i].payload);
    if n == i + 1 {
      TraceIsSafe(states, actions, calls, i);
      assert ListedOK(states[i], actions[i].topic, id);
    } else {
      OfferingAt(states, actions, calls, i, n - 1, id);
      TraceIsSafe(states, actions, calls, n - 1);
      EnabledOnce(states[n - 1], actions[n - 1], calls);
      OfferingStep(states[n - 1], actions[n - 1], p, e, id, WasFull(states, actions, i, n - 1, p, id));
    }
  }

  /** When a publisher leaves, every channel that was registered under its topic when it
      entered has the event, or was full when it was offered it. */
  lemma DeliveredOrFull(states: seq<State>, actions: seq<Action>, calls: nat, i: nat, j: nat, id: nat)
    requires Trace(states, actions, calls) && calls <= 1 && i < j < |actions| && actions[i].Enter?
    requires actions[j] == Leave(actions[i].publisher)
    requires forall m :: i < m < j ==> actions[m] != Leave(actions[i].publisher)
    requires id in Channels(states[i].subs, actions[i].topic)
    ensures var p := actions[i].publisher;
            || Event(actions[i].topic, p, |Sent(states[i], p)|, actions[i].payload) in Delivered(states[j], id)
            || exists m :: i < m < j && actions[m] == Send(p, id) && id in states[m].chans
                           && |states[m].chans[id].queue| >= states[m].chans[id].capacity
  {
    OfferingAt(states, actions, calls, i, j, id);
    var p := actions[i].publisher;
    if WasFull(states, actions, i, j, p, id) {
      var m :| i < m < j && Drops(states[m], actions[m], p, id);
      assert actions[m] == Send(p, id);
    }
  }

  /* ---------- unsubscribing twice ---------- */

  function Twice(): seq<Action> {
    [Create(0, 0, []), Register(0), Remove(0), Close(0), Remove(0), Close(0)]
  }

  function TwiceStates(): seq<State> {
    var open, shut := Chan(0, [], false), Chan(0, [], true);
    var s := START.(chans := map[0 := open], topics := map[0 := []], received := map[0 := []]);
    [START, s, s.(exits := map[0 := Exit(0, 0)]), s.(exits := map[0 := Exit(1, 1)]),
     s.(exits := map[0 := Exit(1, 0)], chans := map[0 := shut]),
     s.(exits := map[0 := Exit(2, 1)], chans := map[0 := shut]),
     s.(exits := map[0 := Exit(2, 0)], chans := map[0 := shut], panicked := true)]
  }

  ghost predicate Leads(s: State, a: Action, s': State, calls: nat) {
    Enabled(s, a, calls) && s' == Next(s, a, calls)
  }

  lemma ClosesOnce(calls: nat)
    requires calls >= 2
    ensures var s, t := TwiceStates(), Twice();
            forall i :: 0 <= i < 4 ==> Leads(s[i], t[i], s[i + 1], calls)
  {
    var s, t := TwiceStates(), Twice();
    assert Leads(s[0], t[0], s[1], calls);
    assert Leads(s[1], t[1], s[2], calls);
    assert Leads(s[2], t[2], s[3], calls);
  }

  lemma ClosesAgain(calls: nat)
    requires calls >= 2
    ensures var s, t := TwiceStates(), Twice();
            forall i :: 4 <= i < 6 ==> Leads(s[i], t[i], s[i + 1], calls)
  {
    var s, t := TwiceStates(), Twice();
    assert Leads(s[4], t[4], s[5], calls);
  }

  lemma TwicePanics(calls: nat)
    requires calls >= 2
    ensures Trace(TwiceStates(), Twice(), calls) && TwiceStates()[6].panicked
  {
    ClosesOnce(calls);
    ClosesAgain(calls);
    var s, t := TwiceStates(), Twice();
    assert forall i :: 0 <= i < 6 ==> Leads(s[i], t[i], s[i + 1], calls);
  }

  /** No interleaving panics, by sending on a closed channel or closing one twice,
      exactly when no subscriber calls its unsubscribe function more than once. */
  lemma NoPanicIffUnsubscribedOnce(calls: nat)
    ensures (forall states: seq<State>, actions: seq<Action>, n: nat :: Trace(states, actions, calls) && 0 <= n < |states| ==> !states[n].panicked)
            <==> calls <= 1
  {
    if calls <= 1 {
      forall states: seq<State>, actions: seq<Action>, n: nat | Trace(states, actions, calls) && 0 <= n < |states|
        ensures !states[n].panicked
      {
        TraceIsSafe(states, actions, calls, n);
      }
    } else {
      TwicePanics(calls);
    }
  }
}
