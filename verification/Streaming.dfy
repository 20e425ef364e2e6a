/** The server side of the streams as it runs: the bounded broadcast channel, the Redis subscriber that feeds it,
    the receive loops that read it, and the bootstrap. */
module Streaming {
  import opened Options
  import opened Flags
  import opened Revisions
  import opened Publication
  import opened Segments
  import opened Replication

  // ---- Receivers as a step system ----

  /** Why a stream ended: at a RESYNC, at an overrun, or because its client went away. */
  datatype Status = Reading | Resynced | Overrun | Left

  /** One stream's receiver: where it subscribed and how far it has read everything ever broadcast, and what it
      has written to its client after `ready`. */
  datatype Receiver = Receiver(
    allowed: set<string>, start: nat, position: nat, status: Status, written: seq<Message>)

  /** Everything ever sent to the broadcast channel, and the streams in the order they were opened. */
  datatype Hub = Hub(history: seq<Message>, receivers: seq<Receiver>)

  datatype Action =
    | Sent(message: Message)
    | Joined(allowed: set<string>)
    | Turned(i: nat)
    | Gone(i: nat)

  const NOTHING_YET := Hub([], [])

  function Passed(m: Message, allowed: set<string>): seq<Message> {
    if m.Notify? && m.env in allowed then [m] else []
  }

  /** One iteration of the receive loop; with everything read it waits. */
  function Turn(history: seq<Message>, r: Receiver): Receiver {
    if !r.status.Reading? || r.position >= |history| then r
    else if |history| - r.position > BROADCAST_CHANNEL_CAPACITY then r.(status := Overrun)
    else
      var m, read := history[r.position], r.(position := r.position + 1);
      if m == Resync then read.(status := Resynced)
      else read.(written := r.written + Passed(m, r.allowed))
  }

  function After(h: Hub, a: Action): Hub {
    match a
    case Sent(m) => h.(history := h.history + [m])
    case Joined(allowed) =>
      h.(receivers := h.receivers + [Receiver(allowed, |h.history|, |h.history|, Reading, [])])
    case Turned(i) =>
      if i < |h.receivers| then h.(receivers := h.receivers[i := Turn(h.history, h.receivers[i])]) else h
    case Gone(i) => if i < |h.receivers| then h.(receivers := h.receivers[i := Departed(h.receivers[i])]) else h
  }

  function Departed(r: Receiver): Receiver {
    if r.status.Reading? then r.(status := Left) else r
  }

  /** Any interleaving of messages, subscriptions, loop iterations of any streams, and clients going away. */
  function AfterAll(h: Hub, actions: seq<Action>): Hub {
    if |actions| == 0 then h else After(AfterAll(h, actions[..|actions| - 1]), actions[|actions| - 1])
  }

  /** The messages sent at positions `from` to `till` that are events of an allowed environment, in order. */
  function Forwarded(history: seq<Message>, from: nat, till: nat, allowed: set<string>): seq<Message>
    requires from <= till <= |history|
    decreases till
  {
    if from == till then [] else Forwarded(history, from, till - 1, allowed) + Passed(history[till - 1], allowed)
  }

  predicate NoResync(history: seq<Message>, from: nat, till: nat)
    requires from <= till <= |history|
  {
    forall i :: from <= i < till ==> history[i] != Resync
  }

  /** What was written is the filter of a contiguous piece of everything broadcast since the subscription. It ends at
      the first RESYNC, or short of one where the stream is still open, was overrun, or lost its client. */
  predicate Sound(history: seq<Message>, r: Receiver) {
    && r.start <= r.position <= |history|
    && r.written == Forwarded(history, r.start, r.position, r.allowed)
    && (r.status.Resynced? ==>
          r.start < r.position && history[r.position - 1] == Resync && NoResync(history, r.start, r.position - 1))
    && (!r.status.Resynced? ==> NoResync(history, r.start, r.position))
    && (r.status.Overrun? ==> |history| - r.position > BROADCAST_CHANNEL_CAPACITY)
  }

  predicate AllSound(h: Hub) {
    forall i :: 0 <= i < |h.receivers| ==> Sound(h.history, h.receivers[i])
  }

  lemma {:induction false} ForwardedStays(
    history: seq<Message>, more: seq<Message>, from: nat, till: nat, allowed: set<string>)
    requires from <= till <= |history|
    ensures Forwarded(history + more, from, till, allowed) == Forwarded(history, from, till, allowed)
    decreases till
  {
    if from < till { ForwardedStays(history, more, from, till - 1, allowed); }
  }

  /** Later broadcasts take nothing from what a stream has read. */
  lemma SoundStays(history: seq<Message>, more: seq<Message>, r: Receiver)
    requires Sound(history, r)
    ensures Sound(history + more, r)
  {
    ForwardedStays(history, more, r.start, r.position, r.allowed);
  }

  lemma TurnKeepsSound(history: seq<Message>, r: Receiver)
    requires Sound(history, r)
    ensures Sound(history, Turn(history, r))
  {
  }

  lemma AfterKeepsSound(h: Hub, a: Action)
    requires AllSound(h)
    ensures AllSound(After(h, a))
  {
    forall i | 0 <= i < |h.receivers| ensures Sound(After(h, a).history, After(h, a).receivers[i]) {
      match a {
        case Sent(m) => SoundStays(h.history, [m], h.receivers[i]);
        case Turned(_) => TurnKeepsSound(h.history, h.receivers[i]);
        case _ =>
      }
    }
  }

  /** In every run every stream has written exactly what it was due from the contiguous piece it has read. */
  lemma {:induction false} RunIsSound(actions: seq<Action>)
    ensures AllSound(AfterAll(NOTHING_YET, actions))
  {
    if |actions| > 0 {
      RunIsSound(actions[..|actions| - 1]);
      AfterKeepsSound(AfterAll(NOTHING_YET, actions[..|actions| - 1]), actions[|actions| - 1]);
    }
  }

  /** A stream that has ended never reads or writes again, whatever happens. */
  lemma {:induction false} EndedStays(h: Hub, actions: seq<Action>, i: nat)
    requires i < |h.receivers| && !h.receivers[i].status.Reading?
    ensures i < |AfterAll(h, actions).receivers| && AfterAll(h, actions).receivers[i] == h.receivers[i]
  {
    if |actions| > 0 { EndedStays(h, actions[..|actions| - 1], i); }
  }

  /** The position of the first RESYNC at or after `from`, or the end. */
  function Horizon(history: seq<Message>, from: nat): (n: nat)
    requires from <= |history|
    ensures from <= n <= |history| && NoResync(history, from, n)
    ensures n < |history| ==> history[n] == Resync
    decreases |history| - from
  {
    if from == |history| || history[from] == Resync then from else Horizon(history, from + 1)
  }

  /** All the events of allowed environments from the subscription to the first RESYNC. */
  function Due(history: seq<Message>, r: Receiver): seq<Message>
    requires r.start <= |history|
  {
    Forwarded(history, r.start, Horizon(history, r.start), r.allowed)
  }

  lemma {:induction false} ForwardedSplits(
    history: seq<Message>, from: nat, mid: nat, till: nat, allowed: set<string>)
    requires from <= mid <= till <= |history|
    ensures Forwarded(history, from, till, allowed)
         == Forwarded(history, from, mid, allowed) + Forwarded(history, mid, till, allowed)
    decreases till
  {
    if mid < till { ForwardedSplits(history, from, mid, till - 1, allowed); }
  }

  /** In every run a stream has written a prefix of what is due to its client, and all of it when the stream was
      resynced or is open with everything read. */
  lemma WritesWhatIsDue(actions: seq<Action>, i: nat)
    requires i < |AfterAll(NOTHING_YET, actions).receivers|
    ensures var h := AfterAll(NOTHING_YET, actions);
            var r := h.receivers[i];
            && r.start <= |h.history|
            && r.written <= Due(h.history, r)
            && (r.status.Resynced? || (r.status.Reading? && r.position == |h.history|) ==>
                  r.written == Due(h.history, r))
  {
    RunIsSound(actions);
    var h := AfterAll(NOTHING_YET, actions);
    var r := h.receivers[i];
    assert Sound(h.history, r);
    var n := Horizon(h.history, r.start);
    if r.status.Resynced? {
      assert n == r.position - 1;
      ForwardedSplits(h.history, r.start, n, r.position, r.allowed);
    } else {
      ForwardedSplits(h.history, r.start, r.position, n, r.allowed);
    }
  }

  /** The receive loop, up to where it waits for the next message or has ended. */
  function Drained(history: seq<Message>, r: Receiver): Receiver
    decreases if r.status.Reading? then |history| + 1 - r.position else 0
  {
    if !r.status.Reading? || r.position >= |history| then r else Drained(history, Turn(history, r))
  }

  lemma {:induction false} RunJoins(h: Hub, first: seq<Action>, rest: seq<Action>)
    ensures AfterAll(h, first + rest) == AfterAll(AfterAll(h, first), rest)
  {
    if |rest| == 0 {
      assert first + rest == first;
    } else {
      RunJoins(h, first, rest[..|rest| - 1]);
      assert (first + rest)[..|first + rest| - 1] == first + rest[..|rest| - 1];
    }
  }

  function Turns(i: nat, n: nat): seq<Action> {
    seq(n, _ => Turned(i))
  }

  lemma {:induction false} DrainedIsSound(history: seq<Message>, r: Receiver)
    requires Sound(history, r)
    ensures Sound(history, Drained(history, r))
    ensures Drained(history, r).status.Reading? ==> Drained(history, r).position == |history|
    ensures Drained(history, r).status.Left? <==> r.status.Left?
    decreases if r.status.Reading? then |history| + 1 - r.position else 0
  {
    if r.status.Reading? && r.position < |history| {
      TurnKeepsSound(history, r);
      DrainedIsSound(history, Turn(history, r));
    }
  }

  lemma OneTurn(h: Hub, i: nat)
    requires i < |h.receivers|
    ensures AfterAll(h, [Turned(i)]) == h.(receivers := h.receivers[i := Turn(h.history, h.receivers[i])])
  {
    hide Turn;
    assert [Turned(i)][..0] == [];
  }

  lemma {:induction false} TurnsDrain(h: Hub, i: nat) returns (n: nat)
    requires i < |h.receivers|
    ensures AfterAll(h, Turns(i, n)) == h.(receivers := h.receivers[i := Drained(h.history, h.receivers[i])])
    decreases if h.receivers[i].status.Reading? then |h.history| + 1 - h.receivers[i].position else 0
  {
    hide AfterAll;
    var r := h.receivers[i];
    if !r.status.Reading? || r.position >= |h.history| {
      n := 0;
      NoTurns(h, i);
    } else {
      var turned := Turn(h.history, r);
      var next := h.(receivers := h.receivers[i := turned]);
      OneTurn(h, i);
      n := TurnsDrain(next, i);
      RunJoins(h, [Turned(i)], Turns(i, n));
      assert Turns(i, n + 1) == [Turned(i)] + Turns(i, n);
      n := n + 1;
    }
  }

  lemma NoTurns(h: Hub, i: nat)
    requires i < |h.receivers|
    ensures AfterAll(h, Turns(i, 0)) == h.(receivers := h.receivers[i := h.receivers[i]])
  {
    assert h.receivers[i := h.receivers[i]] == h.receivers;
  }

  /** Left to itself the loop reads everything and stays open, or ends at the first RESYNC or at an overrun; it is some
      number of its iterations. */
  lemma DrainedStops(h: Hub, i: nat) returns (n: nat)
    requires i < |h.receivers| && Sound(h.history, h.receivers[i])
    ensures var r := Drained(h.history, h.receivers[i]);
            && Sound(h.history, r)
            && (r.status.Reading? ==> r.position == |h.history|)
            && (r.status.Left? <==> h.receivers[i].status.Left?)
            && AfterAll(h, Turns(i, n)) == h.(receivers := h.receivers[i := r])
  {
    hide Drained, Sound, AfterAll;
    DrainedIsSound(h.history, h.receivers[i]);
    n := TurnsDrain(h, i);
  }

  /** A RESYNC ends every stream that was open when it was broadcast, once its loop gets to run: the client has to
      connect again. */
  lemma ResyncEndsStreams(actions: seq<Action>, i: nat, at: nat)
    requires i < |AfterAll(NOTHING_YET, actions).receivers|
    requires var h := AfterAll(NOTHING_YET, actions);
             h.receivers[i].start <= at < |h.history| && h.history[at] == Resync
    ensures var h := AfterAll(NOTHING_YET, actions);
            !Drained(h.history, h.receivers[i]).status.Reading?
  {
    RunIsSound(actions);
    var n := DrainedStops(AfterAll(NOTHING_YET, actions), i);
    DrainedKeepsStart(AfterAll(NOTHING_YET, actions).history, AfterAll(NOTHING_YET, actions).receivers[i]);
  }

  lemma {:induction false} DrainedKeepsStart(history: seq<Message>, r: Receiver)
    ensures Drained(history, r).start == r.start
    decreases if r.status.Reading? then |history| + 1 - r.position else 0
  {
    if r.status.Reading? && r.position < |history| { DrainedKeepsStart(history, Turn(history, r)); }
  }

  // ---- The channel and the receivers as they run ----

  /** The bounded broadcast channel: a ring of the latest messages, overwritten in place. */
  class Channel {
    const ring: array<Message>
    var sent: nat
    ghost var history: seq<Message>   // everything ever sent

    ghost predicate Valid()
      reads this, ring
    {
      && ring.Length == BROADCAST_CHANNEL_CAPACITY
      && |history| == sent
      && forall i {:trigger history[i]} :: 0 <= i < sent && sent - BROADCAST_CHANNEL_CAPACITY <= i ==>
           ring[i % BROADCAST_CHANNEL_CAPACITY] == history[i]
    }

    constructor ()
      ensures Valid() && history == [] && fresh(ring)
    {
      ring := new Message[BROADCAST_CHANNEL_CAPACITY];
      sent, history := 0, [];
    }

    method Send(m: Message)
      requires Valid()
      modifies this, ring
      ensures Valid() && history == old(history) + [m]
    {
      var at := sent % BROADCAST_CHANNEL_CAPACITY;
      forall i | sent - BROADCAST_CHANNEL_CAPACITY < i < sent && 0 <= i
        ensures i % BROADCAST_CHANNEL_CAPACITY != at
      {
        DistinctRemainders(i, sent);
      }
      ring[at] := m;
      sent := sent + 1;
      history := history + [m];
    }
  }

  lemma DistinctRemainders(i: nat, j: nat)
    requires i < j < i + BROADCAST_CHANNEL_CAPACITY
    ensures i % BROADCAST_CHANNEL_CAPACITY != j % BROADCAST_CHANNEL_CAPACITY
  {
  }

  datatype RecvResult = Received(message: Message) | Lagged | Empty

  /** One stream's receiver. */
  class Connection {
    const allowed: set<string>
    const start: nat
    var position: nat
    var status: Status
    var written: seq<Message>

    ghost function State(): Receiver
      reads this
    {
      Receiver(allowed, start, position, status, written)
    }

    constructor (ch: Channel, envs: set<string>)
      requires ch.Valid()
      ensures State() == Receiver(envs, |ch.history|, |ch.history|, Reading, [])
    {
      allowed := envs;
      start, position := ch.sent, ch.sent;
      status, written := Reading, [];
    }

    method Recv(ch: Channel) returns (r: RecvResult)
      requires ch.Valid() && position <= |ch.history|
      modifies this`position
      ensures r.Lagged? <==> |ch.history| - old(position) > BROADCAST_CHANNEL_CAPACITY
      ensures r.Empty? <==> old(position) == |ch.history|
      ensures r.Received? ==> r.message == ch.history[old(position)]
      ensures position == if r.Received? then old(position) + 1 else old(position)
    {
      if ch.sent - position > BROADCAST_CHANNEL_CAPACITY { return Lagged; }
      if position == ch.sent { return Empty; }
      r := Received(ch.ring[position % BROADCAST_CHANNEL_CAPACITY]);
      assert r.message == ch.history[position];
      position := position + 1;
    }

    /** The receive loop, up to where it would wait for the next message. */
    method Forward(ch: Channel)
      requires ch.Valid() && Sound(ch.history, State()) && status.Reading?
      modifies this`position, this`status, this`written
      ensures State() == Drained(ch.history, old(State())) && Sound(ch.history, State())
      ensures status.Reading? ==> position == |ch.history|
      ensures !status.Left?
    {
      while true
        invariant status.Reading? && Sound(ch.history, State())
        invariant Drained(ch.history, State()) == Drained(ch.history, old(State()))
        decreases |ch.history| - position
      {
        TurnKeepsSound(ch.history, State());
        var waits := Iterate(ch);
        if waits || !status.Reading? { return; }
      }
    }

    /** One iteration; `waits` says that there was nothing to receive. */
    method Iterate(ch: Channel) returns (waits: bool)
      requires ch.Valid() && position <= |ch.history| && status.Reading?
      modifies this`position, this`status, this`written
      ensures State() == Turn(ch.history, old(State()))
      ensures waits <==> old(position) == |ch.history|
    {
      var r := Recv(ch);
      if r.Empty? { return true; }
      if r.Lagged? {
        status := Overrun;
        return false;
      }
      if r.message == Resync {
        status := Resynced;
        return false;
      }
      if r.message.Notify? && r.message.env in allowed {
        written := written + [r.message];
      }
      return false;
    }

    /** The client goes away: the stream is dropped where it stands. */
    method Leave()
      modifies this`status
      ensures State() == Departed(old(State()))
    {
      if status.Reading? { status := Left; }
    }
  }

  // ---- The Redis subscriber ----

  /** A payload from Redis; one that cannot be decoded to text never reaches the channel. */
  datatype Payload = Undecodable | Text(message: Message)

  function Decoded(payloads: seq<Payload>): seq<Message> {
    if |payloads| == 0 then []
    else
      Decoded(payloads[..|payloads| - 1])
      + (if payloads[|payloads| - 1].Text? then [payloads[|payloads| - 1].message] else [])
  }

  /** What one round of the subscriber broadcasts. */
  function RoundMessages(first: bool, connects: bool, subscribes: bool, payloads: seq<Payload>): seq<Message> {
    if connects && subscribes then (if first then [] else [Resync]) + Decoded(payloads) else []
  }

  class Subscriber {
    var firstSubscription: bool

    constructor ()
      ensures firstSubscription
    {
      firstSubscription := true;
    }

    /** One round of the endless loop: connect, subscribe, resync local streams unless this is the first
        subscription, then fan out until the connection drops. */
    method Round(ch: Channel, connects: bool, subscribes: bool, payloads: seq<Payload>)
      requires ch.Valid()
      modifies this, ch, ch.ring
      ensures ch.Valid()
      ensures ch.history == old(ch.history) + RoundMessages(old(firstSubscription), connects, subscribes, payloads)
      ensures firstSubscription == (old(firstSubscription) && !(connects && subscribes))
    {
      if !connects { return; }
      if !subscribes { return; }
      if !firstSubscription {
        ch.Send(Resync);
      }
      firstSubscription := false;
      ghost var before := ch.history;
      for i := 0 to |payloads|
        invariant ch.Valid() && ch.history == before + Decoded(payloads[..i]) && !firstSubscription
      {
        assert payloads[..i + 1][..i] == payloads[..i];
        if payloads[i].Text? {
          ch.Send(payloads[i].message);
        }
      }
      assert payloads[..|payloads|] == payloads;
    }
  }

  // ---- One server instance ----

  function Sends(messages: seq<Message>): seq<Action> {
    seq(|messages|, i requires 0 <= i < |messages| => Sent(messages[i]))
  }

  lemma {:induction false} SendsExtendHistory(h: Hub, messages: seq<Message>)
    ensures AfterAll(h, Sends(messages)) == h.(history := h.history + messages)
  {
    if |messages| == 0 {
      assert h.history + messages == h.history;
    } else {
      var init, last := messages[..|messages| - 1], messages[|messages| - 1];
      SendsExtendHistory(h, init);
      assert Sends(messages)[..|messages| - 1] == Sends(init);
      assert h.history + messages == h.history + init + [last];
    }
  }

  /** The channel, the subscriber that feeds it, and the streams that read it. `trace` is what happened so far, as
      actions of the step system: what is proved of its runs holds of this object. */
  class Instance {
    const channel: Channel
    const subscriber: Subscriber
    var streams: seq<Connection>
    ghost var trace: seq<Action>

    ghost function State(): Hub
      reads this, channel, streams
    {
      Hub(channel.history, seq(|streams|, i requires 0 <= i < |streams| reads this, streams => streams[i].State()))
    }

    ghost predicate Valid()
      reads this, channel, channel.ring, streams
    {
      && channel.Valid()
      && (forall i, j :: 0 <= i < j < |streams| ==> streams[i] != streams[j])
      && State() == AfterAll(NOTHING_YET, trace)
    }

    constructor ()
      ensures Valid() && trace == [] && fresh(channel) && fresh(channel.ring) && fresh(subscriber)
      ensures subscriber.firstSubscription
    {
      channel := new Channel();
      subscriber := new Subscriber();
      streams, trace := [], [];
    }

    method SubscriberRound(connects: bool, subscribes: bool, payloads: seq<Payload>)
      requires Valid()
      modifies this`trace, subscriber, channel, channel.ring
      ensures Valid()
      ensures trace == old(trace)
           + Sends(RoundMessages(old(subscriber.firstSubscription), connects, subscribes, payloads))
    {
      ghost var messages := RoundMessages(subscriber.firstSubscription, connects, subscribes, payloads);
      subscriber.Round(channel, connects, subscribes, payloads);
      RunJoins(NOTHING_YET, trace, Sends(messages));
      SendsExtendHistory(old(State()), messages);
      trace := trace + Sends(messages);
    }

    method Subscribe(envs: set<string>) returns (stream: Connection)
      requires Valid()
      modifies this`streams, this`trace
      ensures Valid() && fresh(stream) && streams == old(streams) + [stream]
      ensures trace == old(trace) + [Joined(envs)]
    {
      stream := new Connection(channel, envs);
      streams := streams + [stream];
      trace := trace + [Joined(envs)];
      assert trace[..|trace| - 1] == old(trace);
    }

    /** Runs the receive loop of one stream until it waits or has ended. */
    method Serve(i: nat) returns (ghost turns: nat)
      requires Valid() && i < |streams| && streams[i].status.Reading?
      modifies this`trace, streams[i]
      ensures Valid() && trace == old(trace) + Turns(i, turns)
      ensures streams[i].status.Reading? ==> streams[i].position == |channel.history|
    {
      RunIsSound(trace);
      turns := DrainedStops(State(), i);
      RunJoins(NOTHING_YET, trace, Turns(i, turns));
      streams[i].Forward(channel);
      trace := trace + Turns(i, turns);
    }

    method Hangup(i: nat)
      requires Valid() && i < |streams|
      modifies this`trace, streams[i]
      ensures Valid() && trace == old(trace) + [Gone(i)]
    {
      streams[i].Leave();
      trace := trace + [Gone(i)];
      assert trace[..|trace| - 1] == old(trace);
    }
  }

  // ---- Refinement of the protocol model ----

  function Messages(env: string, events: seq<Event>): seq<Message> {
    seq(|events|, i requires 0 <= i < |events| => Notify(env, events[i]))
  }

  /** A stream of the protocol model and the receiver of its connection, bound to one environment: what was forwarded
      is what was written, less what has arrived. */
  ghost predicate Tracks(env: string, s: Stream, r: Receiver) {
    && r.allowed == {env} && r.position == s.next
    && (s.broken <==> !r.status.Reading?) && !r.status.Left?
    && |s.tail| <= |r.written| && r.written[|r.written| - |s.tail|..] == Messages(env, s.tail)
  }

  /** The receive step of the protocol model is one iteration of the loop, also at a RESYNC and at an overrun. */
  lemma ReceiveIsTurn(w: World, env: string, s: Stream, r: Receiver)
    requires Tracks(env, s, r) && !s.broken && s.next < |w.log|
    ensures Tracks(env, Replication.Received(w, env, s), Turn(w.log, r))
  {
    var t, u := Replication.Received(w, env, s), Turn(w.log, r);
    assert Messages(env, t.tail) == Messages(env, s.tail) + u.written[|r.written|..];
  }

  /** A frame that arrives was written. */
  lemma ArrivalIsWritten(env: string, s: Stream, r: Receiver)
    requires Tracks(env, s, r) && |s.tail| > 0
    ensures Notify(env, s.tail[0]) in r.written
    ensures Tracks(env, s.(tail := s.tail[1..]), r)
  {
    assert r.written[|r.written| - |s.tail|] == Messages(env, s.tail)[0];
    assert r.written[|r.written| - |s.tail|..][1..] == Messages(env, s.tail)[1..] == Messages(env, s.tail[1..]);
  }

  /** Different peers are assigned different receivers, of the first `n`. */
  predicate Assigned(at: map<nat, nat>, n: nat) {
    && (forall p :: p in at ==> at[p] < n)
    && (forall p, q :: p in at && q in at && p != q ==> at[p] != at[q])
  }

  lemma NextAssigned(at: map<nat, nat>, n: nat, p: nat)
    requires Assigned(at, n)
    ensures Assigned(at[p := n], n + 1)
  {
  }

  /** Every stream of the world is tracked by a receiver of its own. */
  ghost predicate Tracked(w: World, h: Hub, at: map<nat, nat>) {
    && h.history == w.log
    && Assigned(at, |h.receivers|)
    && (forall p :: p in w.peers && w.peers[p].stream.Some? ==> TrackedPeer(w.peers[p], h, at, p))
  }

  ghost predicate TrackedPeer(q: Peer, h: Hub, at: map<nat, nat>, p: nat)
    requires q.stream.Some?
  {
    p in at && at[p] < |h.receivers| && Tracks(q.env, q.stream.value, h.receivers[at[p]])
  }

  lemma OneAction(h: Hub, a: Action)
    ensures AfterAll(h, [a]) == After(h, a)
  {
    assert [a][..0] == [];
  }

  lemma StaysTracked(w: World, v: World, h: Hub, at: map<nat, nat>, more: seq<Message>)
    requires Tracked(w, h, at) && v.peers == w.peers && v.log == w.log + more
    ensures Tracked(v, h.(history := h.history + more), at)
  {
    hide Tracks;
    var g := h.(history := h.history + more);
    forall q | q in v.peers && v.peers[q].stream.Some? ensures TrackedPeer(v.peers[q], g, at, q) {
      assert TrackedPeer(w.peers[q], h, at, q);
    }
  }

  /** Only peer `p` moved, and its receiver to `r`. */
  lemma MovedTracked(w: World, v: World, h: Hub, at: map<nat, nat>, p: nat, r: Receiver)
    requires Tracked(w, h, at) && OnlyPeer(w, v, p) && p in at
    requires v.peers[p].stream.Some? ==> Tracks(v.peers[p].env, v.peers[p].stream.value, r)
    ensures Tracked(v, h.(receivers := h.receivers[at[p] := r]), at)
  {
    hide Tracks;
    var g := h.(receivers := h.receivers[at[p] := r]);
    forall q | q in v.peers && v.peers[q].stream.Some? ensures TrackedPeer(v.peers[q], g, at, q) {
      if q != p { assert TrackedPeer(w.peers[q], h, at, q); }
    }
  }

  /** Only peer `p` moved, and has no stream afterwards. */
  lemma StreamlessTracked(w: World, v: World, h: Hub, at: map<nat, nat>, p: nat)
    requires Tracked(w, h, at) && OnlyPeer(w, v, p) && v.peers[p].stream.None?
    ensures Tracked(v, h, at)
  {
    hide Tracks;
    forall q | q in v.peers && v.peers[q].stream.Some? ensures TrackedPeer(v.peers[q], h, at, q) {
      assert TrackedPeer(w.peers[q], h, at, q);
    }
  }

  lemma NewReceiverTracks(q: Peer, h: Hub, at: map<nat, nat>, p: nat)
    requires q.stream == Some(Stream(|h.history|, Phase.Subscribed, [], false))
    ensures TrackedPeer(q, After(h, Joined({q.env})), at[p := |h.receivers|], p)
  {
    assert Messages(q.env, []) == [];
  }

  lemma OtherJoined(other: Peer, h: Hub, at: map<nat, nat>, q: nat, env: string, p: nat)
    requires other.stream.Some? && TrackedPeer(other, h, at, q) && p != q
    ensures TrackedPeer(other, After(h, Joined({env})), at[p := |h.receivers|], q)
  {
    hide Tracks;
  }

  lemma JoinedHub(h: Hub, env: string)
    ensures After(h, Joined({env})).history == h.history
    ensures |After(h, Joined({env})).receivers| == |h.receivers| + 1
  {
  }

  /** Peer `p` opened a stream. */
  lemma OpenedTracked(w: World, v: World, h: Hub, at: map<nat, nat>, p: nat)
    requires Tracked(w, h, at) && OnlyPeer(w, v, p)
    requires v.peers[p].stream == Some(Stream(|w.log|, Phase.Subscribed, [], false))
    ensures Tracked(v, After(h, Joined({v.peers[p].env})), at[p := |h.receivers|])
  {
    hide TrackedPeer, Assigned, After;
    NextAssigned(at, |h.receivers|, p);
    JoinedHub(h, v.peers[p].env);
    forall q | q in v.peers && v.peers[q].stream.Some?
      ensures TrackedPeer(v.peers[q], After(h, Joined({v.peers[p].env})), at[p := |h.receivers|], q)
    {
      if q == p {
        NewReceiverTracks(v.peers[p], h, at, p);
      } else {
        OtherJoined(w.peers[q], h, at, q, v.peers[p].env, p);
      }
    }
  }

  /** Every step of the protocol model is a run of the receivers. */
  lemma StepIsTracked(w: World, step: Step, h: Hub, at: map<nat, nat>)
    returns (actions: seq<Action>, to: map<nat, nat>)
    requires Can(w, step) && Tracked(w, h, at)
    ensures Tracked(Replication.Do(w, step), AfterAll(h, actions), to)
  {
    hide Can, Replication.Do, Tracked, AfterAll, After;
    if OfPeer(step) {
      actions, to := PeerStepIsTracked(w, step, h, at);
    } else {
      var more := Broadcast(w, step);
      actions, to := Sends(more), at;
      SendsExtendHistory(h, more);
      StaysTracked(w, Replication.Do(w, step), h, at, more);
    }
  }

  /** What a step outside the streams broadcasts. */
  lemma Broadcast(w: World, step: Step) returns (more: seq<Message>)
    requires Can(w, step) && !OfPeer(step)
    ensures Replication.Do(w, step).peers == w.peers && Replication.Do(w, step).log == w.log + more
  {
    more := Replication.Do(w, step).log[|w.log|..];
  }

  predicate OfPeer(step: Step) {
    step.Open? || step.Snapshot? || step.Receive? || step.Arrive? || step.Drop? || step.Local?
  }

  lemma PeerMoves(w: World, step: Step)
    requires Can(w, step) && OfPeer(step)
    ensures OnlyPeer(w, Replication.Do(w, step), step.p)
  {
  }

  lemma PeerStepIsTracked(w: World, step: Step, h: Hub, at: map<nat, nat>)
    returns (actions: seq<Action>, to: map<nat, nat>)
    requires Can(w, step) && Tracked(w, h, at) && OfPeer(step)
    ensures Tracked(Replication.Do(w, step), AfterAll(h, actions), to)
  {
    hide Can, Replication.Do, Tracked, AfterAll, After, Turn, Tracks;
    var p, v := step.p, Replication.Do(w, step);
    PeerMoves(w, step);
    if step.Open? {
      StreamOpens(w, p);
      OpenedTracked(w, v, h, at, p);
      actions, to := [Joined({v.peers[p].env})], at[p := |h.receivers|];
      OneAction(h, actions[0]);
    } else if w.peers[p].stream.Some? {
      actions := StreamStepIsTracked(w, step, h, at);
      to := at;
    } else {
      NoneStaysNone(w, step);
      StreamlessTracked(w, v, h, at, p);
      NoAction(h);
      actions, to := [], at;
    }
  }

  lemma StreamOpens(w: World, p: nat)
    requires Can(w, Open(p))
    ensures Replication.Do(w, Open(p)).peers[p].stream == Some(Stream(|w.log|, Phase.Subscribed, [], false))
  {
  }

  lemma NoneStaysNone(w: World, step: Step)
    requires Can(w, step) && OfPeer(step) && !step.Open? && w.peers[step.p].stream.None?
    ensures Replication.Do(w, step).peers[step.p].stream.None?
  {
  }

  lemma StreamStepIsTracked(w: World, step: Step, h: Hub, at: map<nat, nat>) returns (actions: seq<Action>)
    requires Can(w, step) && Tracked(w, h, at) && OfPeer(step) && !step.Open? && w.peers[step.p].stream.Some?
    ensures Tracked(Replication.Do(w, step), AfterAll(h, actions), at)
  {
    hide Can, Replication.Do, Tracked, AfterAll, Turn, Tracks;
    var p, v := step.p, Replication.Do(w, step);
    PeerMoves(w, step);
    TrackedReceiver(w, h, at, p);
    var r := h.receivers[at[p]];
    if step.Receive? {
      ReceiveIsTracked(w, p, r);
      MovedTracked(w, v, h, at, p, Turn(h.history, r));
      actions := [Turned(at[p])];
      OneAction(h, actions[0]);
    } else if v.peers[p].stream.None? {
      MovedTracked(w, v, h, at, p, Departed(r));
      actions := [Gone(at[p])];
      OneAction(h, actions[0]);
    } else {
      DropsAreLast(w, step);
      OwnStepIsTracked(w, step, r);
      MovedTracked(w, v, h, at, p, r);
      assert h.receivers[at[p] := r] == h.receivers;
      actions := [];
      NoAction(h);
    }
  }

  lemma ReceiveIsTracked(w: World, p: nat, r: Receiver)
    requires Can(w, Receive(p)) && Tracks(w.peers[p].env, w.peers[p].stream.value, r)
    ensures var q := Replication.Do(w, Receive(p)).peers[p];
            q.stream.Some? && q.env == w.peers[p].env && Tracks(q.env, q.stream.value, Turn(w.log, r))
  {
    hide Turn, Tracks, Replication.Received;
    StillReading(w.peers[p].env, w.peers[p].stream.value, r);
    ReceiveIsTurn(w, w.peers[p].env, w.peers[p].stream.value, r);
  }

  lemma StillReading(env: string, s: Stream, r: Receiver)
    requires Tracks(env, s, r)
    ensures s.broken <==> !r.status.Reading?
  {
  }

  lemma DropsAreLast(w: World, step: Step)
    requires Can(w, step) && OfPeer(step) && Replication.Do(w, step).peers[step.p].stream.Some?
    ensures !step.Drop?
  {
  }

  lemma NoAction(h: Hub)
    ensures AfterAll(h, []) == h
  {
  }

  lemma TrackedReceiver(w: World, h: Hub, at: map<nat, nat>, p: nat)
    requires Tracked(w, h, at) && p in w.peers && w.peers[p].stream.Some?
    ensures h.history == w.log && p in at && at[p] < |h.receivers|
    ensures Tracks(w.peers[p].env, w.peers[p].stream.value, h.receivers[at[p]])
  {
    assert TrackedPeer(w.peers[p], h, at, p);
  }

  /** Reading the database, taking in a frame, and what a client does by itself leave the receiver alone. */
  lemma OwnStepIsTracked(w: World, step: Step, r: Receiver)
    requires Can(w, step) && (step.Snapshot? || step.Arrive? || step.Local?) && w.peers[step.p].stream.Some?
    requires Replication.Do(w, step).peers[step.p].stream.Some?
    requires Tracks(w.peers[step.p].env, w.peers[step.p].stream.value, r)
    ensures var v := Replication.Do(w, step); Tracks(v.peers[step.p].env, v.peers[step.p].stream.value, r)
  {
    var q := w.peers[step.p];
    if step.Arrive? && q.stream.value.phase.Streaming? {
      ArrivalIsWritten(q.env, q.stream.value, r);
    }
  }

  /** Every run of the protocol model, whatever gaps it has, is a run of the receivers over what it broadcasts, in
      which each of its streams is tracked by a receiver. */
  lemma {:induction false} RunIsTracked(w: World, steps: seq<Step>) returns (actions: seq<Action>, at: map<nat, nat>)
    requires Initial(w) && Runs(w, steps)
    ensures Tracked(Replication.Run(w, steps), AfterAll(NOTHING_YET, actions), at)
  {
    hide Can, Replication.Do, Tracked, AfterAll;
    if |steps| == 0 {
      actions, at := [], map[];
      NoAction(NOTHING_YET);
      InitialIsTracked(w);
    } else {
      var init := steps[..|steps| - 1];
      actions, at := RunIsTracked(w, init);
      var more, to := StepIsTracked(Replication.Run(w, init), steps[|steps| - 1], AfterAll(NOTHING_YET, actions), at);
      RunJoins(NOTHING_YET, actions, more);
      actions, at := actions + more, to;
    }
  }

  lemma InitialIsTracked(w: World)
    requires Initial(w)
    ensures Tracked(w, NOTHING_YET, map[])
  {
  }

  /** The no-gap results hold of the protocol model's own streams: what a stream has forwarded is the filter of a
      contiguous stretch of everything broadcast, up to where it has read; what is on its way to the client is the end
      of that; and it broke at a RESYNC or at an overrun. */
  lemma StreamsHaveNoGap(w: World, steps: seq<Step>, p: nat) returns (start: nat, arrived: nat)
    requires Initial(w) && Runs(w, steps)
    requires p in Replication.Run(w, steps).peers && Replication.Run(w, steps).peers[p].stream.Some?
    ensures var v := Replication.Run(w, steps);
            var q, s := v.peers[p], v.peers[p].stream.value;
            && start <= s.next <= |v.log|
            && arrived <= |Forwarded(v.log, start, s.next, {q.env})|
            && Messages(q.env, s.tail) == Forwarded(v.log, start, s.next, {q.env})[arrived..]
            && (!s.broken ==> NoResync(v.log, start, s.next))
            && (s.broken ==> Lagging(v, s) || (start < s.next && v.log[s.next - 1] == Resync))
  {
    hide AfterAll, Replication.Run;
    var actions, at := RunIsTracked(w, steps);
    RunIsSound(actions);
    var v, h := Replication.Run(w, steps), AfterAll(NOTHING_YET, actions);
    TrackedReceiver(v, h, at, p);
    var r := h.receivers[at[p]];
    assert Sound(h.history, r);
    start, arrived := r.start, |r.written| - |v.peers[p].stream.value.tail|;
  }

  // ---- The bootstrap ----

  /** The order in which the database lists keys: any total order, whatever its collation. */
  ghost predicate TotalOrder(before: (string, string) -> bool) {
    && (forall a, b :: before(a, b) || before(b, a))
    && (forall a, b :: before(a, b) && before(b, a) ==> a == b)
    && (forall a, b, c :: before(a, b) && before(b, c) ==> before(a, c))
  }

  /** First the flags in the order of their keys, then the tombstones in the order of theirs. */
  predicate InQueryOrder(before: (string, string) -> bool, replay: seq<Event>) {
    forall i, j :: 0 <= i < j < |replay| ==>
      && !(replay[i].Delete? && replay[j].Upsert?)
      && (replay[i].Upsert? == replay[j].Upsert? ==> before(KeyOf(replay[i]), KeyOf(replay[j])))
  }

  /** The events of one environment in a replay, in order. */
  function EventsOf(bootstrap: seq<Message>, env: string): seq<Event> {
    if |bootstrap| == 0 then []
    else
      var last := bootstrap[|bootstrap| - 1];
      EventsOf(bootstrap[..|bootstrap| - 1], env) + (if last.Notify? && last.env == env then [last.event] else [])
  }

  /** The replays of the environments, one after the other. */
  function InTurn(envs: seq<string>, replays: seq<seq<Event>>): seq<Message>
    requires |envs| == |replays|
  {
    if |envs| == 0 then []
    else
      var n := |envs| - 1;
      InTurn(envs[..n], replays[..n]) + Messages(envs[n], replays[n])
  }

  predicate Distinct(envs: seq<string>) {
    forall i, j :: 0 <= i < j < |envs| ==> envs[i] != envs[j]
  }

  lemma EventsOfStep(bootstrap: seq<Message>, env: string, e: Event, other: string)
    ensures EventsOf(bootstrap + [Notify(env, e)], other)
         == EventsOf(bootstrap, other) + (if other == env then [e] else [])
  {
    assert (bootstrap + [Notify(env, e)])[..|bootstrap|] == bootstrap;
  }

  lemma {:induction false} EventsOfMessages(bootstrap: seq<Message>, env: string, replay: seq<Event>, other: string)
    ensures EventsOf(bootstrap + Messages(env, replay), other)
         == EventsOf(bootstrap, other) + (if other == env then replay else [])
  {
    hide EventsOf;
    if |replay| == 0 {
      assert bootstrap + Messages(env, replay) == bootstrap;
    } else {
      var init, last := replay[..|replay| - 1], replay[|replay| - 1];
      EventsOfMessages(bootstrap, env, init, other);
      EventsOfStep(bootstrap + Messages(env, init), env, last, other);
      assert bootstrap + Messages(env, replay) == bootstrap + Messages(env, init) + [Notify(env, last)];
      assert replay == init + [last];
    }
  }

  lemma {:induction false} EventsInTurn(envs: seq<string>, replays: seq<seq<Event>>, env: string)
    requires |envs| == |replays| && Distinct(envs)
    ensures env !in envs ==> EventsOf(InTurn(envs, replays), env) == []
    ensures forall i :: 0 <= i < |envs| && envs[i] == env ==> EventsOf(InTurn(envs, replays), env) == replays[i]
  {
    if |envs| > 0 {
      var n := |envs| - 1;
      EventsInTurn(envs[..n], replays[..n], env);
      EventsOfMessages(InTurn(envs[..n], replays[..n]), envs[n], replays[n], env);
      assert envs == envs[..n] + [envs[n]];
    }
  }

  /** Every slot of the set once, in the order of the keys. */
  ghost predicate Enumerates(before: (string, string) -> bool, order: seq<Slot>, slots: set<Slot>) {
    && (forall i, j :: 0 <= i < j < |order| ==> order[i] != order[j] && before(order[i].key, order[j].key))
    && (forall s :: s in order <==> s in slots)
  }

  ghost predicate Precede(before: (string, string) -> bool, slots: set<Slot>, others: set<Slot>) {
    forall s, t :: s in slots && t in others ==> before(s.key, t.key)
  }

  lemma PrecedeOne(before: (string, string) -> bool, done: set<Slot>, left: set<Slot>, s: Slot)
    requires Precede(before, done, left) && s in left && forall t :: t in left ==> before(s.key, t.key)
    ensures Precede(before, done + {s}, left - {s}) && Precede(before, done, {s})
  {
  }

  lemma EnumerateOne(before: (string, string) -> bool, order: seq<Slot>, slots: set<Slot>, s: Slot)
    requires Enumerates(before, order, slots) && s !in slots
    requires Precede(before, slots, {s})
    ensures Enumerates(before, order + [s], slots + {s})
  {
    forall i | 0 <= i < |order| ensures order[i] != s && before(order[i].key, s.key) {
      assert order[i] in slots;
    }
  }

  /** `replay` is the events of the slots of one environment, in the given order. */
  ghost predicate EventsInOrder(db: Database, env: string, order: seq<Slot>, replay: seq<Event>)
    requires DbOk(db)
  {
    && |replay| == |order|
    && forall i :: 0 <= i < |order| ==>
         order[i].env == env && Known(db, order[i]) && replay[i] == SlotEvent(db, order[i])
  }

  lemma NextInOrder(db: Database, env: string, order: seq<Slot>, replay: seq<Event>, s: Slot)
    requires DbOk(db) && EventsInOrder(db, env, order, replay) && Known(db, s) && s.env == env
    ensures EventsInOrder(db, env, order + [s], replay + [SlotEvent(db, s)])
  {
  }

  lemma {:induction false} FirstExists(before: (string, string) -> bool, slots: set<Slot>) returns (first: Slot)
    requires TotalOrder(before) && slots != {}
    ensures first in slots && forall t :: t in slots ==> before(first.key, t.key)
    decreases |slots|
  {
    first :| first in slots;
    if slots != {first} {
      var rest := FirstExists(before, slots - {first});
      if before(rest.key, first.key) {
        first := rest;
      }
    }
  }

  function FlagSlots(db: Database, env: string): set<Slot> {
    set s | s in db.rows && s.env == env
  }

  function TombSlots(db: Database, env: string): set<Slot> {
    set s | s in db.tombs && s.env == env && s !in db.rows
  }

  /** How far a query has come: `left` is still to be listed. */
  ghost predicate Listed(
    db: Database, env: string, before: (string, string) -> bool, slots: set<Slot>, left: set<Slot>,
    order: seq<Slot>, events: seq<Event>)
    requires DbOk(db)
  {
    && left <= slots && |events| == |slots| - |left|
    && Precede(before, slots - left, left)
    && Enumerates(before, order, slots - left)
    && EventsInOrder(db, env, order, events)
  }

  lemma ListNext(
    db: Database, env: string, before: (string, string) -> bool, slots: set<Slot>, left: set<Slot>,
    order: seq<Slot>, events: seq<Event>, s: Slot)
    requires DbOk(db) && Listed(db, env, before, slots, left, order, events)
    requires s in left && forall t :: t in left ==> before(s.key, t.key)
    requires s.env == env && Known(db, s)
    ensures Listed(db, env, before, slots, left - {s}, order + [s], events + [SlotEvent(db, s)])
  {
    hide DbOk, Precede, Enumerates, EventsInOrder, SlotEvent;
    var done := slots - left;
    PrecedeOne(before, done, left, s);
    EnumerateOne(before, order, done, s);
    NextInOrder(db, env, order, events, s);
    assert done + {s} == slots - (left - {s});
  }

  /** The rows of one query, as events in the order of the query. */
  method EventsFor(db: Database, env: string, slots: set<Slot>, before: (string, string) -> bool)
    returns (events: seq<Event>, ghost order: seq<Slot>)
    requires DbOk(db) && TotalOrder(before)
    requires forall s :: s in slots ==> Known(db, s) && s.env == env
    ensures Listed(db, env, before, slots, {}, order, events)
  {
    hide DbOk, Listed, TotalOrder, SlotEvent;
    events, order := [], [];
    var left := slots;
    NothingListed(db, env, before, slots);
    while left != {}
      invariant left <= slots && Listed(db, env, before, slots, left, order, events)
    {
      ghost var first := FirstExists(before, left);
      assert first in left && forall t :: t in left ==> before(first.key, t.key);
      var s :| s in left && forall t :: t in left ==> before(s.key, t.key);
      ListNext(db, env, before, slots, left, order, events, s);
      events, order, left := events + [SlotEvent(db, s)], order + [s], left - {s};
    }
  }

  lemma NothingListed(db: Database, env: string, before: (string, string) -> bool, slots: set<Slot>)
    requires DbOk(db)
    ensures Listed(db, env, before, slots, slots, [], [])
  {
    assert slots - slots == {};
  }

  lemma AllListed(
    db: Database, env: string, before: (string, string) -> bool, slots: set<Slot>, order: seq<Slot>, events: seq<Event>)
    requires DbOk(db) && Listed(db, env, before, slots, {}, order, events)
    ensures Enumerates(before, order, slots) && EventsInOrder(db, env, order, events) && |events| == |slots|
  {
    assert slots - {} == slots;
  }

  /** The replay of one environment in the order it is sent. */
  method ReplayOf(db: Database, env: string, before: (string, string) -> bool) returns (replay: seq<Event>, count: nat)
    requires DbOk(db) && TotalOrder(before)
    ensures IsReplay(db, env, replay) && InQueryOrder(before, replay)
    ensures count == |FlagSlots(db, env)|
  {
    hide DbOk, IsReplay, InQueryOrder, Enumerates, EventsInOrder, Listed, Arranged;
    var flags, flagOrder := EventsFor(db, env, FlagSlots(db, env), before);
    var tombs, tombOrder := EventsFor(db, env, TombSlots(db, env), before);
    AllListed(db, env, before, FlagSlots(db, env), flagOrder, flags);
    AllListed(db, env, before, TombSlots(db, env), tombOrder, tombs);
    QueriesJoin(db, env, before, flagOrder, tombOrder);
    OrdersJoin(db, env, flagOrder, tombOrder, flags, tombs);
    JoinedIsReplay(db, env, before, flagOrder + tombOrder, |flagOrder|, flags + tombs);
    return flags + tombs, |flags|;
  }

  /** The known slots of the environment, `flags` slots with a flag before those with only a tombstone. */
  ghost predicate Arranged(
    db: Database, env: string, before: (string, string) -> bool, slots: seq<Slot>, flags: nat)
  {
    && (forall i :: 0 <= i < |slots| ==>
          slots[i].env == env && Known(db, slots[i]) && (slots[i] in db.rows <==> i < flags))
    && (forall i, j :: 0 <= i < j < |slots| ==>
          slots[i] != slots[j] && ((i < flags <==> j < flags) ==> before(slots[i].key, slots[j].key)))
    && (forall s: Slot :: s.env == env && Known(db, s) ==> s in slots)
  }

  lemma QueriesJoin(
    db: Database, env: string, before: (string, string) -> bool, order: seq<Slot>, more: seq<Slot>)
    requires Enumerates(before, order, FlagSlots(db, env)) && Enumerates(before, more, TombSlots(db, env))
    ensures Arranged(db, env, before, order + more, |order|)
  {
    var slots := order + more;
    forall i | 0 <= i < |slots|
      ensures slots[i].env == env && Known(db, slots[i]) && (slots[i] in db.rows <==> i < |order|)
    {
      if i < |order| { assert order[i] in FlagSlots(db, env); } else { assert more[i - |order|] in TombSlots(db, env); }
    }
    forall s: Slot | s.env == env && Known(db, s) ensures s in slots {
      assert if s in db.rows then s in order else s in more;
    }
  }

  lemma JoinedEvent(
    db: Database, env: string, before: (string, string) -> bool, slots: seq<Slot>, flags: nat, replay: seq<Event>,
    i: nat)
    requires DbOk(db) && Arranged(db, env, before, slots, flags) && EventsInOrder(db, env, slots, replay)
    requires i < |replay|
    ensures InReplay(db, env, replay[i]) && Key(replay[i]) == slots[i].key && (replay[i].Upsert? <==> i < flags)
  {
    hide DbOk, InReplay;
    assert replay[i] == SlotEvent(db, slots[i]);
  }

  lemma JoinedCovers(
    db: Database, env: string, before: (string, string) -> bool, slots: seq<Slot>, flags: nat, replay: seq<Event>,
    key: string)
    requires DbOk(db) && Arranged(db, env, before, slots, flags) && EventsInOrder(db, env, slots, replay)
    requires Known(db, Slot(env, key))
    ensures exists e :: e in replay && Concerns(e, key)
  {
    hide DbOk, InReplay, Known;
    assert Slot(env, key) in slots;
    var i :| 0 <= i < |slots| && slots[i] == Slot(env, key);
    JoinedEvent(db, env, before, slots, flags, replay, i);
    assert replay[i] in replay && Concerns(replay[i], key);
  }

  /** Which slots come before which carries over to their events. */
  lemma JoinedOrder(
    db: Database, env: string, before: (string, string) -> bool, slots: seq<Slot>, flags: nat, replay: seq<Event>)
    requires DbOk(db) && Arranged(db, env, before, slots, flags) && EventsInOrder(db, env, slots, replay)
    ensures OncePerKey(replay) && InQueryOrder(before, replay)
  {
    hide DbOk, Known, SlotEvent;
    forall i | 0 <= i < |replay|
      ensures !replay[i].Unrecognized? && Key(replay[i]) == slots[i].key && (replay[i].Upsert? <==> i < flags)
    {
      JoinedEvent(db, env, before, slots, flags, replay, i);
    }
    forall i, j | 0 <= i < j < |replay| ensures Key(replay[i]) != Key(replay[j]) {
      assert slots[i] != slots[j];
    }
  }

  lemma JoinedIsReplay(
    db: Database, env: string, before: (string, string) -> bool, slots: seq<Slot>, flags: nat, replay: seq<Event>)
    requires DbOk(db) && Arranged(db, env, before, slots, flags) && EventsInOrder(db, env, slots, replay)
    ensures IsReplay(db, env, replay) && InQueryOrder(before, replay)
  {
    hide DbOk, InReplay, Arranged, InQueryOrder, OncePerKey, EventsInOrder;
    forall e | e in replay ensures InReplay(db, env, e) {
      var i :| 0 <= i < |replay| && replay[i] == e;
      JoinedEvent(db, env, before, slots, flags, replay, i);
    }
    forall key | Known(db, Slot(env, key)) ensures exists e :: e in replay && Concerns(e, key) {
      JoinedCovers(db, env, before, slots, flags, replay, key);
    }
    JoinedOrder(db, env, before, slots, flags, replay);
  }

  lemma OrdersJoin(
    db: Database, env: string, order: seq<Slot>, more: seq<Slot>, flags: seq<Event>, tombs: seq<Event>)
    requires DbOk(db) && EventsInOrder(db, env, order, flags) && EventsInOrder(db, env, more, tombs)
    ensures EventsInOrder(db, env, order + more, flags + tombs)
  {
  }

  function RowsOf(db: Database, envs: seq<string>): set<Slot> {
    set s | s in db.rows && s.env in envs
  }

  /** The replay of all allowed environments, one after the other. */
  method Bootstrap(db: Database, envIds: seq<string>, before: (string, string) -> bool)
    returns (bootstrap: seq<Message>, flagCount: nat, ghost replays: seq<seq<Event>>)
    requires DbOk(db) && TotalOrder(before) && Distinct(envIds)
    ensures |replays| == |envIds| && bootstrap == InTurn(envIds, replays)
    ensures forall i :: 0 <= i < |envIds| ==>
              IsReplay(db, envIds[i], replays[i]) && InQueryOrder(before, replays[i])
              && EventsOf(bootstrap, envIds[i]) == replays[i]
    ensures forall env :: env !in envIds ==> EventsOf(bootstrap, env) == []
    ensures flagCount == |RowsOf(db, envIds)|
  {
    hide DbOk, IsReplay, InQueryOrder, TotalOrder;
    bootstrap, flagCount, replays := [], 0, [];
    for n := 0 to |envIds|
      invariant |replays| == n && bootstrap == InTurn(envIds[..n], replays)
      invariant forall i :: 0 <= i < n ==> IsReplay(db, envIds[i], replays[i]) && InQueryOrder(before, replays[i])
      invariant flagCount == |RowsOf(db, envIds[..n])|
    {
      var replay, count := ReplayOf(db, envIds[n], before);
      bootstrap := Append(bootstrap, envIds[n], replay);
      assert envIds[..n + 1][..n] == envIds[..n] && (replays + [replay])[..n] == replays;
      replays := replays + [replay];
      CountRows(db, envIds, n);
      flagCount := flagCount + count;
    }
    assert envIds[..|envIds|] == envIds;
    forall env {
      EventsInTurn(envIds, replays, env);
    }
  }

  lemma CountRows(db: Database, envIds: seq<string>, n: nat)
    requires n < |envIds| && Distinct(envIds)
    ensures |RowsOf(db, envIds[..n + 1])| == |RowsOf(db, envIds[..n])| + |FlagSlots(db, envIds[n])|
  {
    assert envIds[..n + 1] == envIds[..n] + [envIds[n]];
    assert RowsOf(db, envIds[..n + 1]) == RowsOf(db, envIds[..n]) + FlagSlots(db, envIds[n]);
    assert RowsOf(db, envIds[..n]) !! FlagSlots(db, envIds[n]);
  }

  method Append(bootstrap: seq<Message>, env: string, replay: seq<Event>) returns (longer: seq<Message>)
    ensures longer == bootstrap + Messages(env, replay)
  {
    longer := bootstrap;
    for i := 0 to |replay|
      invariant longer == bootstrap + Messages(env, replay[..i])
    {
      longer := longer + [Notify(env, replay[i])];
      assert Messages(env, replay[..i + 1]) == Messages(env, replay[..i]) + [Notify(env, replay[i])];
    }
    assert replay[..|replay|] == replay;
  }
}
