/** The whole replication protocol as a step system: writers, Redis, one server instance with its subscriber and
    its broadcast channel, the streams of its clients, and the clients. */
module Replication {
  import opened Options
  import opened Flags
  import opened Segments
  import opened Revisions
  import opened Publication
  import C = ClientSpec

  const BROADCAST_CHANNEL_CAPACITY := 256

  /** A message on the broadcast channel. Noise is a payload that is not a known event. */
  datatype Message = Resync | Notify(env: string, event: Event) | Noise

  /** How far the client has come with the frames of its stream: `connected`, the replay, `ready`, then live. */
  datatype Phase =
    | Subscribed
    | Greeting(replay: seq<Event>)
    | Replaying(rest: seq<Event>)
    | Streaming

  /** One stream. `next` is the receiver's position in the broadcast channel; `tail` holds live events that were
      forwarded and have not arrived; a broken stream forwards nothing more. */
  datatype Stream = Stream(next: nat, phase: Phase, tail: seq<Event>, broken: bool)

  datatype Peer = Peer(env: string, client: C.Client, stream: Option<Stream>)

  datatype World = World(
    db: Database,
    jobs: iset<Job>,             // committed, not yet published
    bus: iset<Message>,          // accepted by Redis, not yet relayed
    up: bool,                    // the subscription to Redis stands
    everUp: bool,                // it stood before
    owed: bool,                  // a publish failed; a RESYNC will be published
    clearing: bool,              // a RESYNC was accepted, but its loop still counts as running
    log: seq<Message>,           // everything ever sent to the broadcast channel
    peers: map<nat, Peer>)

  /** A patch loads its segments before it publishes (`Expanded`). A publication that fails is handed to the streams of
      its own instance (`here` if that is this one) and may have reached Redis all the same (`accepted`). It starts a
      loop that publishes a RESYNC, unless such a loop counts as running already (`silent` if that one has nothing left
      to publish). */
  datatype Step =
    | Commit(write: Write)
    | Expanded(job: Job)
    | Publish(job: Job)
    | PublishFails(job: Job, here: bool, accepted: bool, silent: bool)
    | PublishResync
    | ResyncCleared(last: bool)
    | SubscriptionLost
    | SubscriptionUp
    | Relay(message: Message, again: bool)
    | Lose(message: Message)
    | Open(p: nat)
    | Snapshot(p: nat, replay: seq<Event>)
    | Receive(p: nat)
    | Arrive(p: nat)
    | Drop(p: nat)
    | Local(p: nat, input: C.Input)

  // ---- Reading a world ----

  /** Events on their way to a subscriber of `env` through publication, Redis and the channel. */
  ghost predicate Approaching(w: World, env: string, from: nat, e: Event) {
    || (exists j :: j in w.jobs && j.env == env && JobEvent(w.db, j) == e)
    || Notify(env, e) in w.bus
    || Unread(w.log, env, from, e)
  }

  ghost predicate Unread(log: seq<Message>, env: string, from: nat, e: Event) {
    exists i :: from <= i < |log| && log[i] == Notify(env, e)
  }

  function ReplayRest(s: Stream): seq<Event> {
    match s.phase
    case Greeting(replay) => replay
    case Replaying(rest) => rest
    case _ => []
  }

  /** Everything that will still reach the client over this stream. */
  ghost function Coming(w: World, env: string, s: Stream): iset<Event> {
    iset e | Approaching(w, env, s.next, e) || e in ReplayRest(s) || e in s.tail
  }

  /** What the client has taken over from this stream so far. */
  function Held(c: C.Client, s: Stream): Live {
    match s.phase
    case Streaming => c.live
    case Replaying(_) => if c.staged.Some? then Live(c.staged.value.flags, c.staged.value.marks) else Live(map[], map[])
    case _ => Live(map[], map[])
  }

  predicate Lagging(w: World, s: Stream) {
    |w.log| - s.next > BROADCAST_CHANNEL_CAPACITY
  }

  /** Updates may be missing for this stream, and it is bound to be closed for it. */
  ghost predicate Excused(w: World, s: Stream) {
    || !w.up
    || w.owed
    || Resync in w.bus
    || (exists i :: s.next <= i < |w.log| && w.log[i] == Resync)
    || Lagging(w, s)
    || s.broken
  }

  // ---- Steps ----

  /** No event of the slot is under way: the contract by which old tombstones are pruned. */
  ghost predicate Quiet(w: World, slot: Slot) {
    && (forall j :: j in w.jobs ==> Slot(j.env, KeyOf(JobEvent(w.db, j))) != slot)
    && (forall e :: Notify(slot.env, e) in w.bus ==> KeyOf(e) != slot.key)
    && (forall p, e | p in w.peers && w.peers[p].env == slot.env && w.peers[p].stream.Some?
                      && e in Coming(w, slot.env, w.peers[p].stream.value) :: KeyOf(e) != slot.key)
  }

  function KeyOf(e: Event): string {
    if e.Unrecognized? then "" else Key(e)
  }

  ghost predicate Can(w: World, step: Step) {
    match step
    case Commit(write) =>
      CanWrite(w.db, write) && (write.Prune? ==> write.slot in w.db.rows || Quiet(w, write.slot))
    case Expanded(job) => job in w.jobs && job.Patched?
    case Publish(job) => job in w.jobs
    case PublishFails(job, _, _, silent) => job in w.jobs && (silent ==> w.clearing)
    case PublishResync => w.owed
    case ResyncCleared(_) => w.clearing
    case SubscriptionLost => w.up
    case SubscriptionUp => !w.up
    case Relay(message, _) => w.up && message in w.bus
    case Lose(message) => !w.up && message in w.bus
    case Open(p) => p in w.peers && w.peers[p].client.streaming && w.peers[p].stream.None?
    case Snapshot(p, replay) =>
      p in w.peers && w.peers[p].stream.Some? && w.peers[p].stream.value.phase.Subscribed?
      && IsReplay(w.db, w.peers[p].env, replay)
    case Receive(p) =>
      p in w.peers && w.peers[p].stream.Some?
      && var s := w.peers[p].stream.value; !s.phase.Subscribed? && !s.broken && s.next < |w.log|
    case Arrive(p) =>
      p in w.peers && w.peers[p].stream.Some? && w.peers[p].client.streaming
      && CanArrive(w.peers[p].stream.value)
    case Drop(p) => p in w.peers && w.peers[p].client.streaming
    case Local(p, input) =>
      p in w.peers && C.Enabled(w.peers[p].client, input) && C.Trusted(input)
      && (input.Connect? || input.Disconnect? || input.ReconnectTimer? || input.PollTick? || input.FetchSettled?)
  }

  predicate CanArrive(s: Stream) {
    !s.phase.Subscribed? && (s.phase.Streaming? ==> |s.tail| > 0)
  }

  /** The receive loop: forward events of the environment, stop at RESYNC and on overrun. */
  function Received(w: World, env: string, s: Stream): Stream
    requires s.next < |w.log|
  {
    if Lagging(w, s) then s.(broken := true)
    else
      match w.log[s.next]
      case Resync => s.(next := s.next + 1, broken := true)
      case Notify(to, e) => s.(next := s.next + 1, tail := if to == env then s.tail + [e] else s.tail)
      case Noise => s.(next := s.next + 1)
  }

  /** The next frame reaches the client. */
  function Arrived(q: Peer): Peer
    requires q.stream.Some? && q.client.streaming && CanArrive(q.stream.value)
  {
    var s := q.stream.value;
    match s.phase
    case Greeting(replay) =>
      q.(client := C.Next(q.client, C.Connected), stream := Some(s.(phase := Replaying(replay))))
    case Replaying(rest) =>
      if |rest| > 0
      then q.(client := C.Next(q.client, C.Update(rest[0])), stream := Some(s.(phase := Replaying(rest[1..]))))
      else q.(client := C.Next(q.client, C.Ready), stream := Some(s.(phase := Streaming)))
    case Streaming => q.(client := C.Next(q.client, C.Update(s.tail[0])), stream := Some(s.(tail := s.tail[1..])))
  }

  ghost function WithPeer(w: World, p: nat, q: Peer): World {
    w.(peers := w.peers[p := q])
  }

  ghost function Do(w: World, step: Step): World
    requires Can(w, step)
  {
    match step
    case Commit(write) =>
      w.(db := Apply(w.db, write), jobs := w.jobs + Publication.Published(w.db, write))
    case Expanded(job) => w.(jobs := w.jobs - iset{job} + iset{Prepared(job.env, JobEvent(w.db, job))})
    case Publish(job) =>
      w.(jobs := w.jobs - iset{job}, bus := w.bus + iset{Notify(job.env, JobEvent(w.db, job))})
    case PublishFails(job, here, accepted, silent) =>
      w.(jobs := w.jobs - iset{job}, owed := w.owed || !silent,
         bus := if accepted then w.bus + iset{Notify(job.env, JobEvent(w.db, job))} else w.bus,
         log := if here then w.log + [Notify(job.env, JobEvent(w.db, job))] else w.log)
    case PublishResync => w.(owed := false, bus := w.bus + iset{Resync}, clearing := true)
    case ResyncCleared(last) => w.(clearing := !last)
    case SubscriptionLost => w.(up := false)
    case SubscriptionUp => w.(up := true, everUp := true, log := if w.everUp then w.log + [Resync] else w.log)
    case Relay(message, again) =>
      w.(log := w.log + [message], bus := if again then w.bus else w.bus - iset{message})
    case Lose(message) => w.(bus := w.bus - iset{message})
    case Open(p) => WithPeer(w, p, w.peers[p].(stream := Some(Stream(|w.log|, Subscribed, [], false))))
    case Snapshot(p, replay) =>
      WithPeer(w, p, w.peers[p].(stream := Some(w.peers[p].stream.value.(phase := Greeting(replay)))))
    case Receive(p) =>
      WithPeer(w, p, w.peers[p].(stream := Some(Received(w, w.peers[p].env, w.peers[p].stream.value))))
    case Arrive(p) => WithPeer(w, p, Arrived(w.peers[p]))
    case Drop(p) =>
      WithPeer(w, p, w.peers[p].(client := C.Next(w.peers[p].client, C.StreamError), stream := None))
    case Local(p, input) =>
      WithPeer(w, p, w.peers[p].(client := C.Next(w.peers[p].client, input),
                                 stream := if input.Disconnect? then None else w.peers[p].stream))
  }

  // ---- The invariant ----

  /** The client is where the stream's phase says, and nothing else can replace its flags meanwhile. */
  predicate InPhase(c: C.Client, s: Stream) {
    && c.streaming
    && (s.phase.Replaying? <==> c.staged.Some?)
    && (s.phase.Replaying? || s.phase.Streaming? ==> !c.polls.active)
  }

  ghost predicate ReplayOk(db: Database, env: string, held: Live, s: Stream) {
    && OncePerKey(ReplayRest(s))
    && (forall e :: e in ReplayRest(s) ==> SoundEvent(db, env, e) && Key(e) !in held.marks)
  }

  /** Unless excused, every slot of the environment is sound and settled, or will be by what is coming. */
  ghost predicate Converging(w: World, q: Peer, s: Stream) {
    !s.phase.Subscribed? && !Excused(w, s) ==>
      forall key :: SlotOk(w.db, Slot(q.env, key), Held(q.client, s), Coming(w, q.env, s))
  }

  ghost predicate StreamOk(w: World, q: Peer, s: Stream) {
    && s.next <= |w.log|
    && InPhase(q.client, s)
    && ReplayOk(w.db, q.env, Held(q.client, s), s)
    && (forall e :: e in s.tail ==> SoundEvent(w.db, q.env, e))
    && (forall e :: Unread(w.log, q.env, s.next, e) ==> SoundEvent(w.db, q.env, e))
    && Converging(w, q, s)
  }

  ghost predicate PeerOk(w: World, q: Peer) {
    && C.Consistent(q.client)
    && (if q.stream.Some? then StreamOk(w, q, q.stream.value) else q.client.staged.None?)
  }

  ghost predicate Inv(w: World) {
    && DbOk(w.db)
    && (w.up ==> w.everUp)
    && (forall j :: j in w.jobs ==> SoundJob(w.db, j))
    && (forall env, e :: Notify(env, e) in w.bus ==> SoundEvent(w.db, env, e))
    && (forall p :: p in w.peers ==> PeerOk(w, w.peers[p]))
  }

  /** A first subscription sends no RESYNC, so it must not find a stream that has missed something. Neither does a
      publication that fails while the loop of an earlier RESYNC still counts as running, so unless its event gets
      through no stream may depend on it. */
  ghost predicate NoGap(w: World, step: Step) {
    && (step.SubscriptionUp? && !w.everUp ==>
          forall p :: p in w.peers && w.peers[p].stream.Some? ==> SafeAnyway(w, w.peers[p].stream.value))
    && (step.PublishFails? && step.silent && !step.here && !step.accepted ==> NoneRelying(w, step.job.env))
  }

  /** The stream has read the database and is not bound to be closed. */
  ghost predicate Relying(w: World, s: Stream) {
    !s.phase.Subscribed? && !Excused(w, s)
  }

  ghost predicate NoneRelying(w: World, env: string) {
    forall p :: p in w.peers && w.peers[p].env == env && w.peers[p].stream.Some? ==>
      !Relying(w, w.peers[p].stream.value)
  }

  /** Yet to read the database, or bound to be closed even when the subscription stands. */
  ghost predicate SafeAnyway(w: World, s: Stream) {
    s.phase.Subscribed? || Excused(w.(up := true), s)
  }

  /** Nothing has happened yet. */
  ghost predicate Initial(w: World) {
    && w.db == Database(map[], map[], map[], map[]) && w.log == [] && w.jobs == iset{} && w.bus == iset{}
    && !w.up && !w.everUp && !w.owed && !w.clearing
    && forall p :: p in w.peers ==> w.peers[p].stream.None? && w.peers[p].client == C.Fresh(w.peers[p].client.threshold)
  }

  lemma InitialInv(w: World)
    requires Initial(w)
    ensures Inv(w)
  {
  }

  // ---- Steps of the server side: streams and clients stay as they are ----

  /** What a step outside the streams may do to what a stream sees. */
  ghost predicate SeesMore(w: World, v: World, q: Peer, s: Stream) {
    && |w.log| <= |v.log| && v.log[..|w.log|] == w.log
    && (Excused(w, s) ==> s.phase.Subscribed? || Excused(v, s))
    && (forall e :: Unread(v.log, q.env, s.next, e) ==> SoundEvent(v.db, q.env, e))
  }

  lemma SameDbKeepsPeer(w: World, v: World, q: Peer)
    requires PeerOk(w, q) && v.db == w.db
    requires q.stream.Some? ==>
               SeesMore(w, v, q, q.stream.value)
               && (!q.stream.value.phase.Subscribed? && !Excused(v, q.stream.value) ==>
                     forall e :: Approaching(w, q.env, q.stream.value.next, e) ==>
                                 Approaching(v, q.env, q.stream.value.next, e))
    ensures PeerOk(v, q)
  {
    if q.stream.Some? {
      var s := q.stream.value;
      if !s.phase.Subscribed? && !Excused(v, s) {
        forall key ensures SlotOk(v.db, Slot(q.env, key), Held(q.client, s), Coming(v, q.env, s)) {
          MoreComing(w.db, Slot(q.env, key), Held(q.client, s), Coming(w, q.env, s), Coming(v, q.env, s));
        }
      }
    }
  }

  lemma MoreComing(db: Database, s: Slot, live: Live, coming: iset<Event>, after: iset<Event>)
    requires SlotOk(db, s, live, coming) && forall e :: e in coming ==> e in after
    ensures SlotOk(db, s, live, after)
  {
  }

  lemma UnreadGrows(log: seq<Message>, more: seq<Message>, env: string, from: nat, e: Event)
    requires from <= |log|
    ensures Unread(log, env, from, e) ==> Unread(log + more, env, from, e)
    ensures Unread(log + more, env, from, e) ==> Unread(log, env, from, e) || Notify(env, e) in more
  {
    if Unread(log, env, from, e) {
      var i :| from <= i < |log| && log[i] == Notify(env, e);
      assert (log + more)[i] == Notify(env, e);
    }
    if Unread(log + more, env, from, e) {
      var i :| from <= i < |log + more| && (log + more)[i] == Notify(env, e);
      if i < |log| { assert log[i] == Notify(env, e); } else { assert more[i - |log|] == Notify(env, e); }
    }
  }

  lemma ResyncStaysUnread(w: World, v: World, s: Stream)
    requires |w.log| <= |v.log| && v.log[..|w.log|] == w.log
    requires exists i :: s.next <= i < |w.log| && w.log[i] == Resync
    ensures exists i :: s.next <= i < |v.log| && v.log[i] == Resync
  {
    var i :| s.next <= i < |w.log| && w.log[i] == Resync;
    assert v.log[i] == v.log[..|w.log|][i];
  }

  lemma {:induction false} CommitKeepsInv(w: World, write: Write)
    requires Inv(w) && Can(w, Commit(write))
    ensures Inv(Do(w, Commit(write)))
  {
    var v := Do(w, Commit(write));
    WriteKeepsDbOk(w.db, write);
    forall j | j in v.jobs ensures SoundJob(v.db, j) {
      if j in w.jobs {
        WriteKeepsSoundJob(w.db, write, j);
      } else {
        var slot :| Touches(w.db, write, slot) && j == JobFor(w.db, write, slot);
        NewJobIsSound(w.db, write, slot);
      }
    }
    forall env, e | Notify(env, e) in v.bus ensures SoundEvent(v.db, env, e) {
      WriteKeepsSoundEvent(w.db, write, env, e);
    }
    forall p | p in v.peers ensures PeerOk(v, v.peers[p]) {
      if w.peers[p].stream.Some? {
        CommitKeepsStream(w, write, p);
      }
    }
  }

  lemma CommitKeepsStream(w: World, write: Write, p: nat)
    requires Inv(w) && Can(w, Commit(write)) && p in w.peers && w.peers[p].stream.Some?
    ensures StreamOk(Do(w, Commit(write)), w.peers[p], w.peers[p].stream.value)
  {
    hide SlotOk, Converging, CanWrite, Apply, SoundEvent;
    var v, q, s := Do(w, Commit(write)), w.peers[p], w.peers[p].stream.value;
    assert PeerOk(w, q);
    forall e | e in ReplayRest(s) || e in s.tail || Unread(w.log, q.env, s.next, e)
      ensures SoundEvent(v.db, q.env, e)
    {
      CommitKeepsComingEvent(w, write, p, e);
    }
    CommitKeepsConverging(w, write, p);
  }

  lemma CommitKeepsConverging(w: World, write: Write, p: nat)
    requires Inv(w) && Can(w, Commit(write)) && p in w.peers && w.peers[p].stream.Some?
    ensures Converging(Do(w, Commit(write)), w.peers[p], w.peers[p].stream.value)
  {
    hide SlotOk, CanWrite, Apply, Coming, SoundEvent, SoundJob;
    var v, q, s := Do(w, Commit(write)), w.peers[p], w.peers[p].stream.value;
    if !s.phase.Subscribed? && !Excused(v, s) {
      assert PeerOk(w, q) && !Excused(w, s);
      forall key ensures SlotOk(v.db, Slot(q.env, key), Held(q.client, s), Coming(v, q.env, s)) {
        CommitKeepsSlot(w, write, p, Slot(q.env, key), Held(q.client, s));
      }
    }
  }

  lemma CommitKeepsSlot(w: World, write: Write, p: nat, slot: Slot, held: Live)
    requires Inv(w) && Can(w, Commit(write)) && p in w.peers && w.peers[p].stream.Some?
    requires slot.env == w.peers[p].env
    requires SlotOk(w.db, slot, held, Coming(w, slot.env, w.peers[p].stream.value))
    ensures SlotOk(Apply(w.db, write), slot, held, Coming(Do(w, Commit(write)), slot.env, w.peers[p].stream.value))
  {
    hide PeerOk, SlotOk, StillComing, Can, Do, Coming, Apply, Touches;
    var v, s := Do(w, Commit(write)), w.peers[p].stream.value;
    CommitKeepsComing(w, write, p);
    DbOkInv(w);
    CanWriteIt(w, write);
    if Touches(w.db, write, slot) { NewJobComes(w, write, slot, s); }
    forall e | write.Prune? && write.slot == slot && slot !in w.db.rows && e in Coming(w, slot.env, s)
      ensures !Concerns(e, slot.key)
    {
      PrunedIsQuiet(w, write, p, e);
    }
    WriteKeepsSlotOk(w.db, write, slot, held, Coming(w, slot.env, s), Coming(v, slot.env, s));
  }

  lemma CanWriteIt(w: World, write: Write)
    requires Can(w, Commit(write))
    ensures CanWrite(w.db, write)
  {
  }

  /** The event owed for a touched slot is on its way to every stream of its environment. */
  lemma NewJobComes(w: World, write: Write, slot: Slot, s: Stream)
    requires DbOk(w.db) && Can(w, Commit(write)) && Touches(w.db, write, slot)
    ensures JobEvent(Apply(w.db, write), JobFor(w.db, write, slot)) in Coming(Do(w, Commit(write)), slot.env, s)
  {
    hide Apply, NextFor, Expand;
    NewJobIsSound(w.db, write, slot);
    assert JobFor(w.db, write, slot) in Do(w, Commit(write)).jobs;
  }

  lemma PrunedIsQuiet(w: World, write: Write, p: nat, e: Event)
    requires Can(w, Commit(write)) && write.Prune? && write.slot !in w.db.rows
    requires p in w.peers && w.peers[p].stream.Some? && w.peers[p].env == write.slot.env
    requires e in Coming(w, write.slot.env, w.peers[p].stream.value)
    ensures !Concerns(e, write.slot.key)
  {
    assert KeyOf(e) != write.slot.key;
  }

  lemma CommitKeepsComingEvent(w: World, write: Write, p: nat, e: Event)
    requires DbOk(w.db) && Can(w, Commit(write)) && p in w.peers && w.peers[p].stream.Some?
    requires e in Coming(w, w.peers[p].env, w.peers[p].stream.value) && SoundEvent(w.db, w.peers[p].env, e)
    ensures SoundEvent(Apply(w.db, write), w.peers[p].env, e)
  {
    assert KeyOf(e) == Key(e);
    WriteKeepsSoundEvent(w.db, write, w.peers[p].env, e);
  }

  /** A job that is due stays due, with the same mark. */
  lemma CommitKeepsJob(w: World, write: Write, j: Job)
    requires Inv(w) && Can(w, Commit(write)) && j in w.jobs
    ensures j in Do(w, Commit(write)).jobs && SameMark(JobEvent(w.db, j), JobEvent(Apply(w.db, write), j))
  {
    WriteKeepsSoundJob(w.db, write, j);
  }

  lemma CommitKeepsComing(w: World, write: Write, p: nat)
    requires Inv(w) && Can(w, Commit(write)) && p in w.peers && w.peers[p].stream.Some?
    ensures var s := w.peers[p].stream.value;
            StillComing(Coming(w, w.peers[p].env, s), Coming(Do(w, Commit(write)), w.peers[p].env, s))
  {
    hide Inv, Can, Do, Coming;
    var v, q, s := Do(w, Commit(write)), w.peers[p], w.peers[p].stream.value;
    forall e | e in Coming(w, q.env, s) ensures exists d :: d in Coming(v, q.env, s) && SameMark(e, d) {
      if j :| j in w.jobs && j.env == q.env && JobEvent(w.db, j) == e {
        CommitKeepsJob(w, write, j);
        DueIsComing(v, q.env, s, j);
        CommitsToDb(w, write);
      } else {
        OtherStaysComing(w, write, q.env, s, e);
        ComingIsSound(w, p, e);
      }
    }
  }

  lemma CommitsToDb(w: World, write: Write)
    requires Can(w, Commit(write))
    ensures Do(w, Commit(write)).db == Apply(w.db, write)
  {
  }

  lemma DueIsComing(w: World, env: string, s: Stream, j: Job)
    requires j in w.jobs && j.env == env
    ensures JobEvent(w.db, j) in Coming(w, env, s)
  {
  }

  lemma OtherStaysComing(w: World, write: Write, env: string, s: Stream, e: Event)
    requires Can(w, Commit(write)) && e in Coming(w, env, s)
    requires !exists j :: j in w.jobs && j.env == env && JobEvent(w.db, j) == e
    ensures e in Coming(Do(w, Commit(write)), env, s)
  {
  }

  lemma ComingIsSound(w: World, p: nat, e: Event)
    requires Inv(w) && p in w.peers && w.peers[p].stream.Some?
    requires e in Coming(w, w.peers[p].env, w.peers[p].stream.value)
    ensures SoundEvent(w.db, w.peers[p].env, e)
  {
    assert PeerOk(w, w.peers[p]);
  }

  /** What a job says is fixed when its segments are loaded. */
  lemma ExpandedKeepsInv(w: World, job: Job)
    requires Inv(w) && Can(w, Expanded(job))
    ensures Inv(Do(w, Expanded(job)))
  {
    forall p | p in w.peers ensures PeerOk(Do(w, Expanded(job)), w.peers[p]) {
      ExpandedKeepsPeer(w, job, w.peers[p]);
    }
  }

  lemma ExpandedKeepsPeer(w: World, job: Job, q: Peer)
    requires Can(w, Expanded(job)) && PeerOk(w, q)
    ensures PeerOk(Do(w, Expanded(job)), q)
  {
    hide SoundEvent, SlotOk, InPhase, ReplayOk, Expand;
    var v := Do(w, Expanded(job));
    assert Prepared(job.env, JobEvent(w.db, job)) in v.jobs;
    if q.stream.Some? {
      forall e | Approaching(w, q.env, q.stream.value.next, e) ensures Approaching(v, q.env, q.stream.value.next, e) {
        if j :| j in w.jobs && j.env == q.env && JobEvent(w.db, j) == e {
          assert j == job || j in v.jobs;
        }
      }
    }
    SameDbKeepsPeer(w, v, q);
  }

  lemma PublishKeepsInv(w: World, job: Job)
    requires Inv(w) && Can(w, Publish(job))
    ensures Inv(Do(w, Publish(job)))
  {
    forall p | p in w.peers ensures PeerOk(Do(w, Publish(job)), w.peers[p]) {
      PublishKeepsPeer(w, job, w.peers[p]);
    }
  }

  lemma PublishKeepsPeer(w: World, job: Job, q: Peer)
    requires Can(w, Publish(job)) && PeerOk(w, q)
    ensures PeerOk(Do(w, Publish(job)), q)
  {
    hide SoundEvent, SlotOk, InPhase, ReplayOk;
    SameDbKeepsPeer(w, Do(w, Publish(job)), q);
  }

  lemma PublishFailsKeepsInv(w: World, job: Job, here: bool, accepted: bool, silent: bool)
    requires var step := PublishFails(job, here, accepted, silent); Inv(w) && Can(w, step) && NoGap(w, step)
    ensures Inv(Do(w, PublishFails(job, here, accepted, silent)))
  {
    forall p | p in w.peers ensures PeerOk(Do(w, PublishFails(job, here, accepted, silent)), w.peers[p]) {
      PublishFailsKeepsPeer(w, job, here, accepted, silent, p);
    }
  }

  lemma PublishFailsKeepsPeer(w: World, job: Job, here: bool, accepted: bool, silent: bool, p: nat)
    requires var step := PublishFails(job, here, accepted, silent); Can(w, step) && NoGap(w, step)
    requires SoundJob(w.db, job) && p in w.peers && PeerOk(w, w.peers[p])
    ensures PeerOk(Do(w, PublishFails(job, here, accepted, silent)), w.peers[p])
  {
    hide SoundEvent, SlotOk, InPhase, ReplayOk;
    var v, q := Do(w, PublishFails(job, here, accepted, silent)), w.peers[p];
    if q.stream.Some? {
      GrownLog(w, v, q, q.stream.value, v.log[|w.log|..]);
      FailureIsTold(w, job, here, accepted, silent, q.env, q.stream.value);
    }
    SameDbKeepsPeer(w, v, q);
  }

  /** A failed publication is delivered after all, or leaves the streams that depend on it excused. */
  lemma FailureIsTold(w: World, job: Job, here: bool, accepted: bool, silent: bool, env: string, s: Stream)
    requires Can(w, PublishFails(job, here, accepted, silent)) && s.next <= |w.log|
    requires silent && !here && !accepted && job.env == env ==> !Relying(w, s)
    ensures var v := Do(w, PublishFails(job, here, accepted, silent));
            !s.phase.Subscribed? && !Excused(v, s) ==>
              forall e :: Approaching(w, env, s.next, e) ==> Approaching(v, env, s.next, e)
  {
    var v := Do(w, PublishFails(job, here, accepted, silent));
    if !s.phase.Subscribed? && !Excused(v, s) {
      forall e | Approaching(w, env, s.next, e) ensures Approaching(v, env, s.next, e) {
        UnreadGrows(w.log, v.log[|w.log|..], env, s.next, e);
        assert v.log == w.log + v.log[|w.log|..];
        if job.env == env && JobEvent(w.db, job) == e && here { assert v.log[|w.log|] == Notify(env, e); }
      }
    }
  }

  /** Appending sound events to the channel. */
  lemma GrownLog(w: World, v: World, q: Peer, s: Stream, more: seq<Message>)
    requires v.db == w.db && v.log == w.log + more && StreamOk(w, q, s)
    requires forall env, e :: Notify(env, e) in more ==> SoundEvent(w.db, env, e)
    ensures v.log[..|w.log|] == w.log
    ensures forall e :: Unread(v.log, q.env, s.next, e) ==> SoundEvent(v.db, q.env, e)
    ensures forall e :: Unread(w.log, q.env, s.next, e) ==> Unread(v.log, q.env, s.next, e)
    ensures (exists i :: s.next <= i < |w.log| && w.log[i] == Resync) ==>
              exists i :: s.next <= i < |v.log| && v.log[i] == Resync
    ensures Resync in more ==> exists i :: s.next <= i < |v.log| && v.log[i] == Resync
  {
    forall e ensures Unread(v.log, q.env, s.next, e) ==> SoundEvent(v.db, q.env, e)
             ensures Unread(w.log, q.env, s.next, e) ==> Unread(v.log, q.env, s.next, e)
    {
      UnreadGrows(w.log, more, q.env, s.next, e);
    }
    if exists i :: s.next <= i < |w.log| && w.log[i] == Resync {
      ResyncStaysUnread(w, v, s);
    }
    if Resync in more {
      var i :| 0 <= i < |more| && more[i] == Resync;
      assert v.log[|w.log| + i] == Resync;
    }
  }

  lemma SubscriptionUpKeepsInv(w: World)
    requires Inv(w) && Can(w, SubscriptionUp) && NoGap(w, SubscriptionUp)
    ensures Inv(Do(w, SubscriptionUp))
  {
    var v := Do(w, SubscriptionUp);
    forall p | p in v.peers ensures PeerOk(v, v.peers[p]) {
      var q := w.peers[p];
      assert PeerOk(w, q);
      if q.stream.Some? {
        if w.everUp {
          GrownLog(w, v, q, q.stream.value, [Resync]);
        } else {
          assert SafeAnyway(w, q.stream.value);
        }
      }
      SameDbKeepsPeer(w, v, q);
    }
  }

  lemma RelayKeepsInv(w: World, message: Message, again: bool)
    requires Inv(w) && Can(w, Relay(message, again))
    ensures Inv(Do(w, Relay(message, again)))
  {
    forall p | p in w.peers ensures PeerOk(Do(w, Relay(message, again)), w.peers[p]) {
      RelayKeepsPeer(w, message, again, w.peers[p]);
    }
  }

  lemma RelayKeepsPeer(w: World, message: Message, again: bool, q: Peer)
    requires Can(w, Relay(message, again)) && PeerOk(w, q)
    requires forall env, e :: Notify(env, e) in w.bus ==> SoundEvent(w.db, env, e)
    ensures PeerOk(Do(w, Relay(message, again)), q)
  {
    hide SoundEvent, SlotOk, InPhase, ReplayOk;
    var v := Do(w, Relay(message, again));
    if q.stream.Some? {
      var s := q.stream.value;
      GrownLog(w, v, q, s, [message]);
      forall e | Approaching(w, q.env, s.next, e) ensures Approaching(v, q.env, s.next, e) {
        if Notify(q.env, e) == message {
          assert v.log[|w.log|] == message;
        }
      }
    }
    SameDbKeepsPeer(w, v, q);
  }

  /** A step that only withdraws messages while every stream is excused, or that adds a RESYNC to come. */
  lemma OutageKeepsInv(w: World, step: Step)
    requires Inv(w) && Can(w, step)
    requires step.PublishResync? || step.ResyncCleared? || step.SubscriptionLost? || step.Lose?
    ensures Inv(Do(w, step))
  {
    var v := Do(w, step);
    forall p | p in v.peers ensures PeerOk(v, v.peers[p]) {
      assert PeerOk(w, w.peers[p]);
      SameDbKeepsPeer(w, v, w.peers[p]);
    }
  }

  // ---- Steps of one stream ----

  lemma OnePeerChanges(w: World, p: nat, q: Peer)
    requires Inv(w) && p in w.peers && PeerOk(w, q)
    ensures Inv(WithPeer(w, p, q))
  {
    var v := WithPeer(w, p, q);
    forall r | r in v.peers ensures PeerOk(v, v.peers[r]) {
      if r != p { assert PeerOk(w, w.peers[r]); }
      SameDbKeepsPeer(w, v, v.peers[r]);
    }
  }

  lemma OpenKeepsInv(w: World, p: nat)
    requires Inv(w) && Can(w, Open(p))
    ensures Inv(Do(w, Open(p)))
  {
    assert PeerOk(w, w.peers[p]);
    OnePeerChanges(w, p, w.peers[p].(stream := Some(Stream(|w.log|, Subscribed, [], false))));
  }

  lemma SnapshotKeepsInv(w: World, p: nat, replay: seq<Event>)
    requires Inv(w) && Can(w, Snapshot(p, replay))
    ensures Inv(Do(w, Snapshot(p, replay)))
  {
    var q := w.peers[p].(stream := Some(w.peers[p].stream.value.(phase := Greeting(replay))));
    var s := q.stream.value;
    assert PeerOk(w, w.peers[p]);
    forall key ensures SlotOk(w.db, Slot(q.env, key), Live(map[], map[]), Coming(w, q.env, s)) {
      ReplaySettles(w.db, Slot(q.env, key), replay, Coming(w, q.env, s));
    }
    ReplaySettles(w.db, Slot(q.env, ""), replay, Coming(w, q.env, s));
    OnePeerChanges(w, p, q);
  }

  /** Reading one message loses nothing: it is in the tail, or the stream is broken. */
  lemma ReceiveKeepsComing(w: World, env: string, s: Stream, e: Event)
    requires s.next < |w.log|
    ensures var t := Received(w, env, s);
            && (Unread(w.log, env, s.next, e) ==> Unread(w.log, env, t.next, e) || e in t.tail || t.broken)
            && (Unread(w.log, env, t.next, e) ==> Unread(w.log, env, s.next, e))
            && (e in t.tail ==> e in s.tail || Unread(w.log, env, s.next, e))
  {
    var t := Received(w, env, s);
    if e in t.tail && e !in s.tail {
      assert w.log[s.next] == Notify(env, e);
    }
  }

  lemma ReceivedIsOk(w: World, q: Peer)
    requires PeerOk(w, q) && q.stream.Some? && q.stream.value.next < |w.log| && !q.stream.value.phase.Subscribed?
    ensures PeerOk(w, q.(stream := Some(Received(w, q.env, q.stream.value))))
  {
    var s, t := q.stream.value, Received(w, q.env, q.stream.value);
    forall e
      ensures Unread(w.log, q.env, s.next, e) ==> Unread(w.log, q.env, t.next, e) || e in t.tail || t.broken
      ensures Unread(w.log, q.env, t.next, e) ==> SoundEvent(w.db, q.env, e)
      ensures e in t.tail ==> SoundEvent(w.db, q.env, e)
    {
      ReceiveKeepsComing(w, q.env, s, e);
    }
    if !Excused(w, t) {
      assert !Excused(w, s);
      forall key ensures SlotOk(w.db, Slot(q.env, key), Held(q.client, t), Coming(w, q.env, t)) {
        MoreComing(w.db, Slot(q.env, key), Held(q.client, s), Coming(w, q.env, s), Coming(w, q.env, t));
      }
    }
  }

  lemma ReceiveKeepsInv(w: World, p: nat)
    requires Inv(w) && Can(w, Receive(p))
    ensures Inv(Do(w, Receive(p)))
  {
    assert PeerOk(w, w.peers[p]);
    ReceivedIsOk(w, w.peers[p]);
    OnePeerChanges(w, p, w.peers[p].(stream := Some(Received(w, w.peers[p].env, w.peers[p].stream.value))));
  }

  ghost predicate AtFrame(w: World, q: Peer) {
    PeerOk(w, q) && q.stream.Some? && q.client.streaming && CanArrive(q.stream.value)
  }

  lemma HelloArrives(w: World, q: Peer)
    requires AtFrame(w, q) && q.stream.value.phase.Greeting?
    ensures PeerOk(w, Arrived(q))
  {
    var s, t := q.stream.value, Arrived(q).stream.value;
    C.NextKeepsConsistent(q.client, C.Connected);
    assert ReplayRest(t) == ReplayRest(s) && Held(Arrived(q).client, t) == Held(q.client, s);
    assert Coming(w, q.env, t) == Coming(w, q.env, s);
  }

  /** Taking one event off a replay leaves a replay of other keys. */
  lemma ReplayShrinks(db: Database, env: string, held: Live, rest: seq<Event>)
    requires |rest| > 0 && OncePerKey(rest)
    requires forall e :: e in rest ==> SoundEvent(db, env, e) && Key(e) !in held.marks
    ensures rest[0] in rest && rest == [rest[0]] + rest[1..] && OncePerKey(rest[1..])
    ensures forall d :: d in rest[1..] ==>
              SoundEvent(db, env, d) && Key(d) !in SetMark(held.marks, rest[0])
  {
    forall d | d in rest[1..] ensures SoundEvent(db, env, d) && Key(d) !in SetMark(held.marks, rest[0]) {
      var i :| 0 <= i < |rest[1..]| && rest[1..][i] == d;
      assert rest[i + 1] == d;
    }
  }

  lemma ReplayArrives(w: World, q: Peer)
    requires AtFrame(w, q) && q.stream.value.phase.Replaying? && |q.stream.value.phase.rest| > 0
    ensures PeerOk(w, Arrived(q))
  {
    var s, t := q.stream.value, Arrived(q).stream.value;
    var e, held := s.phase.rest[0], Held(q.client, s);
    ReplayShrinks(w.db, q.env, held, s.phase.rest);
    C.NextKeepsConsistent(q.client, C.Update(e));
    assert Held(Arrived(q).client, t) == Live(SetFlag(held.cache, e), SetMark(held.marks, e));
    if !Excused(w, t) {
      StagedSlots(w, q, e, t);
    }
  }

  lemma StagedSlots(w: World, q: Peer, e: Event, t: Stream)
    requires AtFrame(w, q) && q.stream.value.phase.Replaying? && !Excused(w, q.stream.value)
    requires var rest := q.stream.value.phase.rest;
             |rest| > 0 && e == rest[0] && t == q.stream.value.(phase := Replaying(rest[1..]))
    ensures var held := Held(q.client, q.stream.value);
            Revisioned(e) && forall key :: SlotOk(w.db, Slot(q.env, key),
              Live(SetFlag(held.cache, e), SetMark(held.marks, e)), Coming(w, q.env, t))
  {
    var s, held := q.stream.value, Held(q.client, q.stream.value);
    ReplayShrinks(w.db, q.env, held, s.phase.rest);
    assert e in ReplayRest(s);
    forall key
      ensures SlotOk(w.db, Slot(q.env, key), Live(SetFlag(held.cache, e), SetMark(held.marks, e)), Coming(w, q.env, t))
    {
      StagingKeepsSlotOk(w.db, Slot(q.env, key), held, e, Coming(w, q.env, s), Coming(w, q.env, t));
    }
  }

  lemma ReadyArrives(w: World, q: Peer)
    requires AtFrame(w, q) && q.stream.value.phase == Replaying([])
    ensures PeerOk(w, Arrived(q))
  {
    var s, t := q.stream.value, Arrived(q).stream.value;
    C.NextKeepsConsistent(q.client, C.Ready);
    assert Held(Arrived(q).client, t) == Held(q.client, s);
    assert Coming(w, q.env, t) == Coming(w, q.env, s);
  }

  lemma UpdateArrives(w: World, q: Peer)
    requires AtFrame(w, q) && q.stream.value.phase.Streaming?
    ensures PeerOk(w, Arrived(q))
  {
    var s, t := q.stream.value, Arrived(q).stream.value;
    var e := s.tail[0];
    C.NextKeepsConsistent(q.client, C.Update(e));
    assert Held(Arrived(q).client, t) == Deliver(q.client.live, e);
    assert s.tail == [e] + t.tail;
    if !Excused(w, t) {
      forall key ensures SlotOk(w.db, Slot(q.env, key), Deliver(q.client.live, e), Coming(w, q.env, t)) {
        DeliveryKeepsSlotOk(w.db, Slot(q.env, key), q.client.live, e, Coming(w, q.env, s), Coming(w, q.env, t));
      }
    }
  }

  lemma ArriveKeepsInv(w: World, p: nat)
    requires Inv(w) && Can(w, Arrive(p))
    ensures Inv(Do(w, Arrive(p)))
  {
    var q := w.peers[p];
    assert PeerOk(w, q);
    match q.stream.value.phase {
      case Greeting(_) => HelloArrives(w, q);
      case Replaying(rest) => if |rest| > 0 { ReplayArrives(w, q); } else { ReadyArrives(w, q); }
      case Streaming => UpdateArrives(w, q);
    }
    OnePeerChanges(w, p, Arrived(q));
  }

  lemma DropKeepsInv(w: World, p: nat)
    requires Inv(w) && Can(w, Drop(p))
    ensures Inv(Do(w, Drop(p)))
  {
    var q := w.peers[p];
    assert PeerOk(w, q);
    C.NextKeepsConsistent(q.client, C.StreamError);
    OnePeerChanges(w, p, q.(client := C.Next(q.client, C.StreamError), stream := None));
  }

  /** Timers, polls and calls leave alone what a stream has delivered: a poll answered meanwhile is discarded. */
  lemma LocalKeepsStream(w: World, q: Peer, input: C.Input)
    requires PeerOk(w, q) && C.Enabled(q.client, input) && C.Trusted(input) && q.stream.Some?
    requires input.Connect? || input.ReconnectTimer? || input.PollTick? || input.FetchSettled?
    ensures PeerOk(w, q.(client := C.Next(q.client, input)))
  {
    var d, s := C.Next(q.client, input), q.stream.value;
    C.NextKeepsConsistent(q.client, input);
    if input.FetchSettled? { assert C.FetchInOrder(q.client.polls, input.id); }
    assert InPhase(d, s) && Held(d, s) == Held(q.client, s);
  }

  lemma LocalKeepsInv(w: World, p: nat, input: C.Input)
    requires Inv(w) && Can(w, Local(p, input))
    ensures Inv(Do(w, Local(p, input)))
  {
    var q := w.peers[p];
    assert PeerOk(w, q);
    C.NextKeepsConsistent(q.client, input);
    if q.stream.Some? && !input.Disconnect? {
      LocalKeepsStream(w, q, input);
    }
    OnePeerChanges(w, p, q.(client := C.Next(q.client, input), stream := if input.Disconnect? then None else q.stream));
  }

  /** Every step keeps the invariant, unless it opens one of the two gaps. */
  lemma StepKeepsInv(w: World, step: Step)
    requires Inv(w) && Can(w, step) && NoGap(w, step)
    ensures Inv(Do(w, step))
  {
    match step {
      case Commit(write) => CommitKeepsInv(w, write);
      case Expanded(job) => ExpandedKeepsInv(w, job);
      case Publish(job) => PublishKeepsInv(w, job);
      case PublishFails(job, here, accepted, silent) => PublishFailsKeepsInv(w, job, here, accepted, silent);
      case PublishResync => OutageKeepsInv(w, step);
      case ResyncCleared(_) => OutageKeepsInv(w, step);
      case SubscriptionLost => OutageKeepsInv(w, step);
      case SubscriptionUp => SubscriptionUpKeepsInv(w);
      case Relay(message, again) => RelayKeepsInv(w, message, again);
      case Lose(_) => OutageKeepsInv(w, step);
      case Open(p) => OpenKeepsInv(w, p);
      case Snapshot(p, replay) => SnapshotKeepsInv(w, p, replay);
      case Receive(p) => ReceiveKeepsInv(w, p);
      case Arrive(p) => ArriveKeepsInv(w, p);
      case Drop(p) => DropKeepsInv(w, p);
      case Local(p, input) => LocalKeepsInv(w, p, input);
    }
  }

  // ---- Whole runs ----

  ghost predicate Runs(w: World, steps: seq<Step>)
    decreases |steps|, 0
  {
    |steps| > 0 ==> Runs(w, steps[..|steps| - 1]) && Can(Run(w, steps[..|steps| - 1]), steps[|steps| - 1])
  }

  ghost function Run(w: World, steps: seq<Step>): World
    requires Runs(w, steps)
    decreases |steps|, 1
  {
    if |steps| == 0 then w else Do(Run(w, steps[..|steps| - 1]), steps[|steps| - 1])
  }

  /** The first subscription of the run found no stream that could have missed something. */
  ghost predicate Gapless(w: World, steps: seq<Step>)
    requires Runs(w, steps)
    decreases |steps|
  {
    |steps| > 0 ==>
      Gapless(w, steps[..|steps| - 1]) && NoGap(Run(w, steps[..|steps| - 1]), steps[|steps| - 1])
  }

  lemma {:induction false} RunKeepsInv(w: World, steps: seq<Step>)
    requires Inv(w) && Runs(w, steps) && Gapless(w, steps)
    ensures Inv(Run(w, steps))
  {
    if |steps| > 0 {
      RunKeepsInv(w, steps[..|steps| - 1]);
      StepKeepsInv(Run(w, steps[..|steps| - 1]), steps[|steps| - 1]);
    }
  }

  /** A client past `ready` on a stream that is not about to be closed. */
  ghost predicate Following(w: World, p: nat) {
    && p in w.peers && w.peers[p].stream.Some?
    && w.peers[p].stream.value.phase.Streaming?
    && !Excused(w, w.peers[p].stream.value)
  }

  /** The flag set of an environment as clients should see it. */
  function FlagSet(db: Database, env: string): map<string, Flag> {
    map s | s in db.rows && s.env == env :: s.key := Expand(db.rows[s].flag, SegmentsOf(db, env))
  }

  lemma FlagSetLookup(db: Database, env: string, key: string)
    ensures Lookup(FlagSet(db, env), key) == Content(db, Slot(env, key))
  {
    assert key in FlagSet(db, env) <==> Slot(env, key) in db.rows;
  }

  ghost function Elements(es: seq<Event>): iset<Event> {
    iset e | e in es
  }

  lemma {:induction false} DeliveriesSettle(db: Database, s: Slot, live: Live, es: seq<Event>, n: nat)
    requires SlotOk(db, s, live, Elements(es)) && n <= |es|
    requires forall e :: e in es ==> SoundEvent(db, s.env, e)
    ensures SlotOk(db, s, DeliverAll(live, es[..n]), Elements(es[n..]))
  {
    if n == 0 {
      assert es[0..] == es;
    } else {
      DeliveriesSettle(db, s, live, es, n - 1);
      assert es[..n][..n - 1] == es[..n - 1];
      assert es[n - 1..] == [es[n - 1]] + es[n..];
      DeliveryKeepsSlotOk(db, s, DeliverAll(live, es[..n - 1]), es[n - 1], Elements(es[n - 1..]), Elements(es[n..]));
    }
  }

  /** Convergence. In every state of every gapless run, a following client that takes in everything still under
      way to it, in any order and with any repetitions, serves exactly the flag set of the database. */
  lemma Convergence(w: World, steps: seq<Step>, p: nat, es: seq<Event>)
    requires Inv(w) && Runs(w, steps) && Gapless(w, steps)
    requires Following(Run(w, steps), p)
    requires forall e :: e in es <==>
               e in Coming(Run(w, steps), Run(w, steps).peers[p].env, Run(w, steps).peers[p].stream.value)
    ensures DeliverAll(Run(w, steps).peers[p].client.live, es).cache
         == FlagSet(Run(w, steps).db, Run(w, steps).peers[p].env)
  {
    RunKeepsInv(w, steps);
    JoinIsFlagSet(Run(w, steps), p, es);
  }

  lemma JoinIsFlagSet(w: World, p: nat, es: seq<Event>)
    requires Inv(w) && Following(w, p)
    requires forall e :: e in es <==> e in Coming(w, w.peers[p].env, w.peers[p].stream.value)
    ensures DeliverAll(w.peers[p].client.live, es).cache == FlagSet(w.db, w.peers[p].env)
  {
    var q, s := w.peers[p], w.peers[p].stream.value;
    assert PeerOk(w, q);
    var coming := Coming(w, q.env, s);
    forall e | e in es ensures SoundEvent(w.db, q.env, e) {
      assert e in coming;
    }
    assert coming == Elements(es);
    forall key ensures Lookup(DeliverAll(q.client.live, es).cache, key) == Lookup(FlagSet(w.db, q.env), key) {
      DeliveriesSettle(w.db, Slot(q.env, key), q.client.live, es, |es|);
      assert es[..|es|] == es;
      assert Elements(es[|es|..]) == iset{};
      SettledSlotServes(w.db, Slot(q.env, key), DeliverAll(q.client.live, es));
      FlagSetLookup(w.db, q.env, key);
    }
    SameMap(DeliverAll(q.client.live, es).cache, FlagSet(w.db, q.env));
  }

  /** At quiescence a following client evaluates against exactly the flag set of the database. */
  lemma Agreement(w: World, steps: seq<Step>, p: nat)
    requires Inv(w) && Runs(w, steps) && Gapless(w, steps)
    requires Following(Run(w, steps), p)
    requires Coming(Run(w, steps), Run(w, steps).peers[p].env, Run(w, steps).peers[p].stream.value) == iset{}
    ensures Run(w, steps).peers[p].client.core == FlagSet(Run(w, steps).db, Run(w, steps).peers[p].env)
  {
    RunKeepsInv(w, steps);
    JoinIsFlagSet(Run(w, steps), p, []);
    assert PeerOk(Run(w, steps), Run(w, steps).peers[p]);
  }

  /** From the very beginning: whatever happened, as long as neither of the two gaps was hit, every following client
      that takes in what is under way serves the database's flag set; with nothing under way it evaluates against
      it. */
  lemma ReachableConvergence(w: World, steps: seq<Step>, p: nat, es: seq<Event>)
    requires Initial(w) && Runs(w, steps) && Gapless(w, steps)
    requires Following(Run(w, steps), p)
    requires forall e :: e in es <==>
               e in Coming(Run(w, steps), Run(w, steps).peers[p].env, Run(w, steps).peers[p].stream.value)
    ensures var v := Run(w, steps);
            && DeliverAll(v.peers[p].client.live, es).cache == FlagSet(v.db, v.peers[p].env)
            && (es == [] ==> v.peers[p].client.core == FlagSet(v.db, v.peers[p].env))
  {
    InitialInv(w);
    Convergence(w, steps, p, es);
    if es == [] {
      assert Coming(Run(w, steps), Run(w, steps).peers[p].env, Run(w, steps).peers[p].stream.value) == iset{};
      Agreement(w, steps, p);
    }
  }

  // ---- Recovery ----

  /** What a client and its stream do by themselves. */
  predicate Own(step: Step, p: nat) {
    step == Open(p) || step == Arrive(p) || step == Drop(p) || step == Local(p, C.ReconnectTimer)
    || (step.Snapshot? && step.p == p)
  }

  ghost predicate OwnRun(w: World, steps: seq<Step>, p: nat) {
    Runs(w, steps) && Gapless(w, steps) && forall i :: 0 <= i < |steps| ==> Own(steps[i], p)
  }

  lemma {:induction false} OwnExtends(w: World, steps: seq<Step>, p: nat, step: Step)
    requires OwnRun(w, steps, p) && Own(step, p) && Can(Run(w, steps), step)
    ensures OwnRun(w, steps + [step], p) && Run(w, steps + [step]) == Do(Run(w, steps), step)
  {
    hide Can, Do;
    RunExtends(w, steps, step);
  }

  /** Nothing of the peer's environment, and no RESYNC, is between a commit and the channel. */
  ghost predicate Settled(w: World, env: string) {
    && w.up && !w.owed && Resync !in w.bus
    && (forall j :: j in w.jobs ==> j.env != env)
    && (forall e :: Notify(env, e) !in w.bus)
  }

  /** Only the peer moved. */
  ghost predicate OnlyPeer(w: World, v: World, p: nat) {
    p in w.peers && p in v.peers && v.peers[p].env == w.peers[p].env
    && v == w.(peers := v.peers) && v.peers == w.peers[p := v.peers[p]]
  }

  /** A stream opened after everything that was ever broadcast, with nothing forwarded. */
  ghost predicate Caught(w: World, p: nat) {
    && p in w.peers && w.peers[p].stream.Some? && w.peers[p].client.streaming
    && w.peers[p].stream.value.next == |w.log| && w.peers[p].stream.value.tail == []
    && !w.peers[p].stream.value.broken
  }

  /** Recovery. Once writers and Redis are quiet for its environment and the subscription stands, a connecting client
      needs nobody else: from every reachable state, whatever became of its stream, finitely many of its own steps
      bring it to a stream with nothing under way, evaluating against exactly the database's flag set. */
  lemma Recovery(w: World, p: nat) returns (steps: seq<Step>)
    requires Inv(w) && p in w.peers && w.peers[p].client.pending && Settled(w, w.peers[p].env)
    ensures OwnRun(w, steps, p) && Following(Run(w, steps), p)
    ensures Coming(Run(w, steps), w.peers[p].env, Run(w, steps).peers[p].stream.value) == iset{}
    ensures Run(w, steps).db == w.db && Run(w, steps).peers[p].client.core == FlagSet(w.db, w.peers[p].env)
  {
    steps := Reopen(w, p);
    var v := Run(w, steps);
    RunKeepsInv(w, steps);
    steps := Replay(w, steps, p, |ReplayRest(v.peers[p].stream.value)|);
    var u := Run(w, steps);
    RunKeepsInv(w, steps);
    NothingUnderWay(u, p);
    JoinIsFlagSet(u, p, []);
    assert PeerOk(u, u.peers[p]);
  }

  lemma NothingUnderWay(w: World, p: nat)
    requires Caught(w, p) && w.peers[p].stream.value.phase.Streaming? && Settled(w, w.peers[p].env)
    ensures Following(w, p) && Coming(w, w.peers[p].env, w.peers[p].stream.value) == iset{}
  {
  }

  /** The old stream is given up, a new one is opened and reads the database. */
  lemma Reopen(w: World, p: nat) returns (steps: seq<Step>)
    requires Inv(w) && p in w.peers && w.peers[p].client.pending
    ensures OwnRun(w, steps, p)
    ensures var v := Run(w, steps); OnlyPeer(w, v, p) && Caught(v, p) && v.peers[p].stream.value.phase.Greeting?
  {
    hide Inv, Can, Do;
    steps := GiveUp(w, p);
    var v := Run(w, steps);
    OpenedIsCaught(w, v, p);
    OwnExtends(w, steps, p, Open(p));
    v, steps := Do(v, Open(p)), steps + [Open(p)];
    DbOkInv(w);
    var replay := ReplayExists(v.db, v.peers[p].env);
    ReadIsCaught(w, v, p, replay);
    OwnExtends(w, steps, p, Snapshot(p, replay));
    steps := steps + [Snapshot(p, replay)];
  }

  lemma DbOkInv(w: World)
    requires Inv(w)
    ensures DbOk(w.db)
  {
  }

  lemma OpenedIsCaught(w: World, v: World, p: nat)
    requires OnlyPeer(w, v, p) && v.peers[p].client.streaming && v.peers[p].stream.None?
    ensures Can(v, Open(p))
    ensures var u := Do(v, Open(p)); OnlyPeer(w, u, p) && Caught(u, p) && u.peers[p].stream.value.phase.Subscribed?
  {
  }

  lemma ReadIsCaught(w: World, v: World, p: nat, replay: seq<Event>)
    requires OnlyPeer(w, v, p) && Caught(v, p) && v.peers[p].stream.value.phase.Subscribed?
    requires IsReplay(v.db, v.peers[p].env, replay)
    ensures Can(v, Snapshot(p, replay))
    ensures var u := Do(v, Snapshot(p, replay));
            OnlyPeer(w, u, p) && Caught(u, p) && u.peers[p].stream.value.phase.Greeting?
  {
  }

  lemma GiveUp(w: World, p: nat) returns (steps: seq<Step>)
    requires Inv(w) && p in w.peers && w.peers[p].client.pending
    ensures OwnRun(w, steps, p)
    ensures var v := Run(w, steps);
            OnlyPeer(w, v, p) && v.peers[p].client.streaming && v.peers[p].stream.None?
  {
    hide Inv, Can, Do;
    steps := [];
    DropWorks(w, p);
    if w.peers[p].client.streaming {
      OwnExtends(w, [], p, Drop(p));
      steps := [] + [Drop(p)];
    }
    AfterDrop(w, p);
    AfterTimer(w, Run(w, steps), p);
    OwnExtends(w, steps, p, Local(p, C.ReconnectTimer));
    steps := steps + [Local(p, C.ReconnectTimer)];
  }

  lemma DropWorks(w: World, p: nat)
    requires p in w.peers
    ensures w.peers[p].client.streaming ==> Can(w, Drop(p))
  {
  }

  lemma AfterTimer(w: World, v: World, p: nat)
    requires OnlyPeer(w, v, p) && v.peers[p].stream.None? && !v.peers[p].client.closed
    requires Can(v, Local(p, C.ReconnectTimer))
    ensures var u := Do(v, Local(p, C.ReconnectTimer));
            OnlyPeer(w, u, p) && u.peers[p].client.streaming && u.peers[p].stream.None?
  {
  }

  /** Without a stream, or after losing it, a connecting client has a reconnect scheduled. */
  lemma AfterDrop(w: World, p: nat)
    requires Inv(w) && p in w.peers && w.peers[p].client.pending
    ensures var v := if w.peers[p].client.streaming then Do(w, Drop(p)) else w;
            && OnlyPeer(w, v, p) && v.peers[p].stream.None? && !v.peers[p].client.closed
            && Can(v, Local(p, C.ReconnectTimer))
  {
    hide Inv;
    PendingClient(w, p);
  }

  lemma PendingClient(w: World, p: nat)
    requires Inv(w) && p in w.peers && w.peers[p].client.pending
    ensures var c := w.peers[p].client;
            && !c.closed && (c.streaming <==> !c.timer)
            && (!c.streaming ==> w.peers[p].stream.None?)
  {
    assert PeerOk(w, w.peers[p]);
  }

  /** The frames arrive one after the other until the client is past `ready`. */
  lemma {:induction false} Replay(w: World, before: seq<Step>, p: nat, n: nat) returns (steps: seq<Step>)
    requires OwnRun(w, before, p)
    requires var v := Run(w, before);
             && OnlyPeer(w, v, p) && Caught(v, p)
             && (v.peers[p].stream.value.phase.Greeting? || v.peers[p].stream.value.phase.Replaying?)
             && |ReplayRest(v.peers[p].stream.value)| == n
    ensures OwnRun(w, steps, p)
    ensures var u := Run(w, steps); OnlyPeer(w, u, p) && Caught(u, p) && u.peers[p].stream.value.phase.Streaming?
    decreases if Run(w, before).peers[p].stream.value.phase.Greeting? then 1 else 0, n
  {
    var v := Run(w, before);
    var s := v.peers[p].stream.value;
    OwnExtends(w, before, p, Arrive(p));
    steps := before + [Arrive(p)];
    ArriveMovesOn(v, p);
    if s.phase.Greeting? || n > 0 {
      steps := Replay(w, steps, p, if s.phase.Greeting? then n else n - 1);
    }
  }

  lemma ArriveMovesOn(v: World, p: nat)
    requires Caught(v, p)
    requires var s := v.peers[p].stream.value; s.phase.Greeting? || s.phase.Replaying?
    ensures Can(v, Arrive(p)) && OnlyPeer(v, Do(v, Arrive(p)), p) && Caught(Do(v, Arrive(p)), p)
    ensures var s, t := v.peers[p].stream.value, Do(v, Arrive(p)).peers[p].stream.value;
            if s.phase.Greeting? then t.phase == Replaying(s.phase.replay)
            else if |s.phase.rest| > 0 then t.phase == Replaying(s.phase.rest[1..])
            else t.phase.Streaming?
  {
  }

  // ---- The gap of the first subscription ----

  /** Steps of writers and Redis alone, before the subscriber has ever subscribed. */
  predicate Offstage(step: Step) {
    || step.Commit? || step.Expanded? || step.Publish? || step.PublishFails? || step.PublishResync?
    || step.ResyncCleared? || step.Lose?
  }

  /** The stream has read the database and nothing will close it. */
  ghost predicate Exposed(w: World, s: Stream) {
    && !s.phase.Subscribed? && !s.broken && !Lagging(w, s)
    && !exists i :: s.next <= i < |w.log| && w.log[i] == Resync
  }

  ghost predicate NoneExposed(w: World) {
    forall p :: p in w.peers && w.peers[p].stream.Some? ==> !Exposed(w, w.peers[p].stream.value)
  }

  ghost predicate AllConverging(w: World) {
    forall p :: p in w.peers && w.peers[p].stream.Some? ==> Converging(w, w.peers[p], w.peers[p].stream.value)
  }

  ghost predicate OffstageRun(w: World, steps: seq<Step>) {
    Runs(w, steps) && forall i :: 0 <= i < |steps| ==> Offstage(steps[i])
  }

  lemma {:induction false} OffstageKeepsNoneExposed(w: World, steps: seq<Step>)
    requires Inv(w) && !w.everUp && NoneExposed(w) && OffstageRun(w, steps)
    ensures Inv(Run(w, steps)) && !Run(w, steps).everUp && NoneExposed(Run(w, steps))
  {
    if |steps| > 0 {
      var init, step := steps[..|steps| - 1], steps[|steps| - 1];
      OffstageKeepsNoneExposed(w, init);
      StepKeepsInv(Run(w, init), step);
      OffstageStep(Run(w, init), step);
    }
  }

  lemma OffstageStep(w: World, step: Step)
    requires Inv(w) && NoneExposed(w) && Can(w, step) && Offstage(step)
    ensures NoneExposed(Do(w, step)) && Do(w, step).everUp == w.everUp
  {
    hide SoundJob, SoundEvent, DbOk, ReplayOk, Converging, InPhase, CanWrite, Apply;
    var v := Do(w, step);
    forall p | p in v.peers && v.peers[p].stream.Some? ensures !Exposed(v, v.peers[p].stream.value) {
      var s := w.peers[p].stream.value;
      assert PeerOk(w, w.peers[p]);
      assert !Exposed(w, s);
      if exists i :: s.next <= i < |w.log| && w.log[i] == Resync {
        assert v.log[..|w.log|] == w.log;
        ResyncStaysUnread(w, v, s);
      }
    }
  }

  lemma {:induction false} Longer(keys: set<string>) returns (key: string)
    ensures key !in keys && forall k :: k in keys ==> |k| < |key|
  {
    if keys == {} {
      key := "k";
    } else {
      var k :| k in keys;
      var rest := Longer(keys - {k});
      key := rest + k + "k";
    }
  }

  /** An exposed stream misses a write that is published and lost before the first subscription; afterwards
      nothing is under way that would tell the client, and nothing closes its stream. */
  lemma LostBeforeFirstSubscription(w: World, p: nat) returns (steps: seq<Step>)
    requires Inv(w) && !w.everUp
    requires p in w.peers && w.peers[p].stream.Some? && Exposed(w, w.peers[p].stream.value)
    ensures OffstageRun(w, steps) && !Run(w, steps).up
    ensures !AllConverging(Do(Run(w, steps), SubscriptionUp))
  {
    var q := w.peers[p];
    var key := Longer(Held(q.client, q.stream.value).marks.Keys);
    var flag := Flag(key, true, None, [], BooleanFlag, None, None, [], [], "");
    var w1, calm := CalmDown(w);
    var w2, missed := WriteAndLose(w1, q.env, flag);
    RunsCompose(w, calm, missed);
    steps := calm + missed;
    var v := Do(w2, SubscriptionUp);
    NothingTells(w1, v, p, key, Patched(q.env, flag, NextFor(w1.db, Slot(q.env, flag.key))));
    assert v.peers[p] == q && !Excused(v, q.stream.value);
    assert !Converging(v, q, q.stream.value);
  }

  /** A committed patch owes one event, and nothing else changes but the database. */
  lemma PutOwes(w: World, env: string, flag: Flag)
    ensures var revision := NextFor(w.db, Slot(env, flag.key));
            var put, job := Put(env, flag, revision), Patched(env, flag, revision);
            && Can(w, Commit(put))
            && var v := Do(w, Commit(put));
               && v == w.(db := Apply(w.db, put), jobs := v.jobs)
               && job in v.jobs && forall j :: j in v.jobs ==> j in w.jobs || j == job
  {
    var revision := NextFor(w.db, Slot(env, flag.key));
    var put := Put(env, flag, revision);
    assert Touches(w.db, put, Slot(env, flag.key));
    assert JobFor(w.db, put, Slot(env, flag.key)) == Patched(env, flag, revision);
  }

  lemma PublishTakes(w: World, job: Job)
    requires job in w.jobs
    ensures Can(w, Publish(job))
    ensures var v := Do(w, Publish(job));
            && v == w.(jobs := v.jobs, bus := v.bus)
            && (forall j :: j in v.jobs ==> j in w.jobs && j != job)
            && Notify(job.env, JobEvent(w.db, job)) in v.bus
            && forall m :: m in v.bus ==> m in w.bus || m == Notify(job.env, JobEvent(w.db, job))
  {
  }

  lemma LoseTakes(w: World, m: Message)
    requires !w.up && m in w.bus
    ensures Can(w, Lose(m))
    ensures var v := Do(w, Lose(m)); v == w.(bus := v.bus) && forall n :: n in v.bus ==> n in w.bus && n != m
  {
  }

  lemma WriteAndLose(w: World, env: string, flag: Flag) returns (v: World, steps: seq<Step>)
    requires Inv(w) && !w.up
    ensures OffstageRun(w, steps) && v == Run(w, steps)
    ensures v.db == Apply(w.db, Put(env, flag, NextFor(w.db, Slot(env, flag.key))))
    ensures v.jobs <= w.jobs && v.bus <= w.bus
    ensures v == w.(db := v.db, jobs := v.jobs, bus := v.bus)
  {
    hide Inv, Can, Do, Apply, NextFor, JobEvent;
    var revision := NextFor(w.db, Slot(env, flag.key));
    var put, job := Put(env, flag, revision), Patched(env, flag, revision);
    PutOwes(w, env, flag);
    var w1 := Do(w, Commit(put));
    var lost := Notify(env, JobEvent(w1.db, job));
    PublishTakes(w1, job);
    var w2 := Do(w1, Publish(job));
    LoseTakes(w2, lost);
    v, steps := Do(w2, Lose(lost)), [Commit(put), Publish(job), Lose(lost)];
    ThreeSteps(w, steps[0], steps[1], steps[2]);
  }

  lemma ThreeSteps(w: World, a: Step, b: Step, c: Step)
    requires Can(w, a) && Can(Do(w, a), b) && Can(Do(Do(w, a), b), c) && Offstage(a) && Offstage(b) && Offstage(c)
    ensures OffstageRun(w, [a, b, c]) && Run(w, [a, b, c]) == Do(Do(Do(w, a), b), c)
  {
    hide Can, Do, Offstage;
    TwoSteps(w, a, b);
    assert [a, b, c][..2] == [a, b];
  }

  lemma {:induction false} RunsCompose(w: World, first: seq<Step>, second: seq<Step>)
    requires OffstageRun(w, first) && OffstageRun(Run(w, first), second)
    ensures OffstageRun(w, first + second) && Run(w, first + second) == Run(Run(w, first), second)
  {
    if |second| == 0 {
      assert first + second == first;
    } else {
      var init := second[..|second| - 1];
      RunsCompose(w, first, init);
      assert (first + second)[..|first + second| - 1] == first + init;
    }
  }

  /** Everything still coming is older than the write that was lost. */
  lemma NothingTells(w: World, v: World, p: nat, key: string, job: Job)
    requires Inv(w) && p in w.peers && w.peers[p].stream.Some?
    requires job.Patched? && job.flag.key == key && job.env == w.peers[p].env
    requires job.revision == NextFor(w.db, Slot(job.env, key))
    requires v.db == Apply(w.db, Put(job.env, job.flag, job.revision))
    requires v.jobs <= w.jobs && v.bus <= w.bus && v.log == w.log && v.peers == w.peers
    requires key !in Held(w.peers[p].client, w.peers[p].stream.value).marks
    ensures var q, s := w.peers[p], w.peers[p].stream.value;
            !SlotOk(v.db, Slot(q.env, key), Held(q.client, s), Coming(v, q.env, s))
  {
    var q, s := w.peers[p], w.peers[p].stream.value;
    assert PeerOk(w, q);
    var slot := Slot(q.env, key);
    assert v.db.rows[slot].since == job.revision;
    forall e | e in Coming(v, q.env, s) ensures !(Concerns(e, key) && Decisive(v.db, slot, MarkOf(e))) {
      if j :| j in v.jobs && j.env == q.env && JobEvent(v.db, j) == e {
        assert SoundJob(w.db, j) && JobEvent(w.db, j) == JobEvent(v.db, j);
      } else {
        assert SoundEvent(w.db, q.env, e);
      }
    }
  }

  lemma StepExtends(w: World, steps: seq<Step>, step: Step)
    requires OffstageRun(w, steps) && Can(Run(w, steps), step) && Offstage(step)
    ensures OffstageRun(w, steps + [step]) && Run(w, steps + [step]) == Do(Run(w, steps), step)
  {
    assert (steps + [step])[..|steps|] == steps;
  }

  /** An owed or published RESYNC can be lost as well while the subscription is down. */
  lemma CalmDown(w: World) returns (v: World, steps: seq<Step>)
    requires Inv(w) && !w.everUp
    ensures OffstageRun(w, steps) && v == Run(w, steps) && Inv(v)
    ensures v == w.(owed := false, bus := v.bus, clearing := v.clearing) && Resync !in v.bus && v.bus <= w.bus
  {
    v, steps := w, [];
    if v.owed {
      StepExtends(w, steps, PublishResync);
      StepKeepsInv(v, PublishResync);
      v, steps := Do(v, PublishResync), steps + [PublishResync];
    }
    if Resync in v.bus {
      StepExtends(w, steps, Lose(Resync));
      StepKeepsInv(v, Lose(Resync));
      v, steps := Do(v, Lose(Resync)), steps + [Lose(Resync)];
    }
  }

  /** Exposed streams are real: a client that connects to a fresh server reads the database and is exposed before
      the server has ever subscribed. */
  lemma ExposedIsReachable(w: World, p: nat)
    requires Initial(w) && p in w.peers
    ensures var steps := [Local(p, C.Connect(None)), Open(p), Snapshot(p, [])];
            Runs(w, steps) && Gapless(w, steps) && !Run(w, steps).everUp && !NoneExposed(Run(w, steps))
  {
    hide Do;
    var a, b, c := Local(p, C.Connect(None)), Open(p), Snapshot(p, []);
    NothingToReplay(w, p);
    FirstSteps(w, p, []);
    RunExtends(w, [], a);
    RunExtends(w, [a], b);
    RunExtends(w, [a, b], c);
    assert [] + [a] == [a] && [a] + [b] == [a, b] && [a, b] + [c] == [a, b, c];
    var v := Do(Do(w, a), b);
    FreshReaderIsExposed(v, p, []);
    OnlyPeerJoins(w, v, Do(v, c), p);
    SomeExposed(Do(v, c), p);
  }

  lemma SomeExposed(w: World, p: nat)
    requires p in w.peers && w.peers[p].stream.Some? && Exposed(w, w.peers[p].stream.value)
    ensures !NoneExposed(w)
  {
  }

  lemma OnlyPeerJoins(u: World, v: World, w: World, p: nat)
    requires OnlyPeer(u, v, p) && OnlyPeer(v, w, p)
    ensures OnlyPeer(u, w, p)
  {
  }

  lemma NothingToReplay(w: World, p: nat)
    requires Initial(w) && p in w.peers
    ensures IsReplay(w.db, w.peers[p].env, [])
  {
  }

  /** A new client connects, opens its stream behind everything broadcast, and reads the database. */
  lemma FirstSteps(w: World, p: nat, replay: seq<Event>)
    requires p in w.peers && w.peers[p].stream.None? && w.peers[p].client == C.Fresh(w.peers[p].client.threshold)
    requires IsReplay(w.db, w.peers[p].env, replay)
    ensures Can(w, Local(p, C.Connect(None)))
    ensures var u := Do(w, Local(p, C.Connect(None)));
            && Can(u, Open(p))
            && var v := Do(u, Open(p));
               && Can(v, Snapshot(p, replay)) && OnlyPeer(w, v, p)
               && v.peers[p].stream == Some(Stream(|w.log|, Subscribed, [], false))
  {
    hide IsReplay;
  }

  lemma FreshReaderIsExposed(v: World, p: nat, replay: seq<Event>)
    requires Can(v, Snapshot(p, replay)) && v.peers[p].stream == Some(Stream(|v.log|, Subscribed, [], false))
    ensures var u := Do(v, Snapshot(p, replay));
            OnlyPeer(v, u, p) && u.peers[p].stream.Some? && Exposed(u, u.peers[p].stream.value)
  {
  }

  lemma {:induction false} RunExtends(w: World, steps: seq<Step>, step: Step)
    requires Runs(w, steps) && Gapless(w, steps) && Can(Run(w, steps), step) && NoGap(Run(w, steps), step)
    ensures Runs(w, steps + [step]) && Gapless(w, steps + [step])
    ensures Run(w, steps + [step]) == Do(Run(w, steps), step)
  {
    hide Can, Do, NoGap;
    assert (steps + [step])[..|steps|] == steps;
  }

  /** The first subscription sends no RESYNC. It is safe after whatever writers and Redis did beforehand exactly
      when no stream was exposed. */
  lemma FirstSubscriptionSafeIff(w: World)
    requires Inv(w) && !w.everUp
    ensures NoneExposed(w)
       <==> forall steps | OffstageRun(w, steps) && !Run(w, steps).up ::
              AllConverging(Do(Run(w, steps), SubscriptionUp))
  {
    if NoneExposed(w) {
      forall steps | OffstageRun(w, steps) && !Run(w, steps).up
        ensures AllConverging(Do(Run(w, steps), SubscriptionUp))
      {
        OffstageKeepsNoneExposed(w, steps);
        var v := Run(w, steps);
        forall p | p in v.peers && v.peers[p].stream.Some? ensures SafeAnyway(v, v.peers[p].stream.value) {
          assert !Exposed(v, v.peers[p].stream.value);
        }
        StepKeepsInv(v, SubscriptionUp);
        var u := Do(v, SubscriptionUp);
        forall p | p in u.peers && u.peers[p].stream.Some? ensures Converging(u, u.peers[p], u.peers[p].stream.value) {
          assert PeerOk(u, u.peers[p]);
        }
      }
    } else {
      var p :| p in w.peers && w.peers[p].stream.Some? && Exposed(w, w.peers[p].stream.value);
      var steps := LostBeforeFirstSubscription(w, p);
    }
  }

  // ---- The gap after a RESYNC ----

  /** Writers commit, and other instances, whose last RESYNC loop still counts as running, fail to publish. */
  predicate Unheard(step: Step, env: string) {
    || step.Commit? || step.Expanded?
    || (step.PublishFails? && step.silent && !step.here && !step.accepted && step.job.env == env)
  }

  ghost predicate UnheardRun(w: World, steps: seq<Step>, env: string) {
    Runs(w, steps) && forall i :: 0 <= i < |steps| ==> Unheard(steps[i], env)
  }

  lemma UnheardStep(w: World, step: Step, env: string)
    requires NoneRelying(w, env) && Can(w, step) && Unheard(step, env)
    ensures NoGap(w, step) && NoneRelying(Do(w, step), env)
  {
    var v := Do(w, step);
    forall p | p in v.peers && v.peers[p].env == env && v.peers[p].stream.Some?
      ensures !Relying(v, v.peers[p].stream.value)
    {
      assert !Relying(w, w.peers[p].stream.value);
    }
  }

  lemma {:induction false} UnheardKeepsInv(w: World, steps: seq<Step>, env: string)
    requires Inv(w) && NoneRelying(w, env) && UnheardRun(w, steps, env)
    ensures Inv(Run(w, steps)) && NoneRelying(Run(w, steps), env)
  {
    hide Inv, Can, Do, NoGap, NoneRelying;
    if |steps| > 0 {
      var init, step := steps[..|steps| - 1], steps[|steps| - 1];
      UnheardKeepsInv(w, init, env);
      UnheardStep(Run(w, init), step, env);
      StepKeepsInv(Run(w, init), step);
    }
  }

  /** A stream that relies on what will be published misses a write whose publication fails while an earlier RESYNC
      still counts as under way: nothing tells the client, and nothing closes its stream. */
  lemma LostWhileClearing(w: World, p: nat) returns (steps: seq<Step>)
    requires Inv(w) && w.clearing
    requires p in w.peers && w.peers[p].stream.Some? && Relying(w, w.peers[p].stream.value)
    ensures UnheardRun(w, steps, w.peers[p].env) && !AllConverging(Run(w, steps))
  {
    var q := w.peers[p];
    var key := Longer(Held(q.client, q.stream.value).marks.Keys);
    var flag := Flag(key, true, None, [], BooleanFlag, None, None, [], [], "");
    var v;
    v, steps := WriteInSilence(w, q.env, flag);
    NothingTells(w, v, p, key, Patched(q.env, flag, NextFor(w.db, Slot(q.env, flag.key))));
    assert v.peers[p] == q && !Excused(v, q.stream.value);
    assert !Converging(v, q, q.stream.value);
  }

  lemma FailureTakes(w: World, job: Job)
    requires job in w.jobs && w.clearing
    ensures Can(w, PublishFails(job, false, false, true))
    ensures var v := Do(w, PublishFails(job, false, false, true));
            v == w.(jobs := v.jobs) && forall j :: j in v.jobs ==> j in w.jobs && j != job
  {
  }

  lemma WriteInSilence(w: World, env: string, flag: Flag) returns (v: World, steps: seq<Step>)
    requires Inv(w) && w.clearing
    ensures UnheardRun(w, steps, env) && v == Run(w, steps)
    ensures v.db == Apply(w.db, Put(env, flag, NextFor(w.db, Slot(env, flag.key))))
    ensures v.jobs <= w.jobs && v == w.(db := v.db, jobs := v.jobs)
  {
    hide Inv, Can, Do, Apply, NextFor, Run, Runs;
    var revision := NextFor(w.db, Slot(env, flag.key));
    var put, job := Put(env, flag, revision), Patched(env, flag, revision);
    PutOwes(w, env, flag);
    var a, b := Commit(put), PublishFails(job, false, false, true);
    FailureTakes(Do(w, a), job);
    v, steps := Do(Do(w, a), b), [a, b];
    TwoSteps(w, a, b);
  }

  lemma TwoSteps(w: World, a: Step, b: Step)
    requires Can(w, a) && Can(Do(w, a), b)
    ensures Runs(w, [a, b]) && Run(w, [a, b]) == Do(Do(w, a), b)
  {
    hide Can, Do;
    assert [a, b][..1] == [a] && [a][..0] == [];
    assert Runs(w, []) && Run(w, []) == w;
    assert Runs(w, [a]) && Run(w, [a]) == Do(w, a);
  }

  /** While an earlier RESYNC still counts as under way, failing publications of an environment are safe exactly when
      no stream of it relies on them. */
  lemma SilentFailuresSafeIff(w: World, env: string)
    requires Inv(w) && w.clearing
    ensures NoneRelying(w, env) <==> forall steps | UnheardRun(w, steps, env) :: AllConverging(Run(w, steps))
  {
    if NoneRelying(w, env) {
      forall steps | UnheardRun(w, steps, env) ensures AllConverging(Run(w, steps)) {
        UnheardKeepsInv(w, steps, env);
        AllConverge(Run(w, steps));
      }
    } else {
      var p :| p in w.peers && w.peers[p].env == env && w.peers[p].stream.Some? && Relying(w, w.peers[p].stream.value);
      var steps := LostWhileClearing(w, p);
    }
  }

  lemma AllConverge(w: World)
    requires Inv(w)
    ensures AllConverging(w)
  {
    forall p | p in w.peers && w.peers[p].stream.Some? ensures Converging(w, w.peers[p], w.peers[p].stream.value) {
      assert PeerOk(w, w.peers[p]);
    }
  }

  /** That moment is real: after one failed publication and its RESYNC, a client that connects relies on what comes
      next before the loop is cleared. */
  lemma RelyingIsReachable(w: World, p: nat, flag: Flag) returns (steps: seq<Step>)
    requires Initial(w) && p in w.peers
    ensures Runs(w, steps) && Gapless(w, steps)
    ensures Run(w, steps).clearing && !NoneRelying(Run(w, steps), w.peers[p].env)
  {
    hide Can, Do, NoGap, IsReplay, NoneRelying;
    InitialInv(w);
    var u;
    u, steps := OneFailure(w, w.peers[p].env, flag);
    RunKeepsInv(w, steps);
    DbOkInv(u);
    var replay := ReplayExists(u.db, w.peers[p].env);
    FirstSteps(u, p, replay);
    var a, b, c := Local(p, C.Connect(None)), Open(p), Snapshot(p, replay);
    NoGapAlone(u, a);
    RunExtends(w, steps, a);
    NoGapAlone(Do(u, a), b);
    RunExtends(w, steps + [a], b);
    var v := Do(Do(u, a), b);
    NoGapAlone(v, c);
    RunExtends(w, steps + [a] + [b], c);
    FreshReaderIsExposed(v, p, replay);
    OnlyPeerJoins(u, v, Do(v, c), p);
    ExposedRelies(u, Do(v, c), p);
    steps := steps + [a] + [b] + [c];
  }

  lemma NoGapAlone(w: World, step: Step)
    requires !step.SubscriptionUp? && !step.PublishFails?
    ensures NoGap(w, step)
  {
  }

  lemma ExposedRelies(u: World, v: World, p: nat)
    requires u.up && !u.owed && u.clearing && Resync !in u.bus && OnlyPeer(u, v, p)
    requires v.peers[p].stream.Some? && Exposed(v, v.peers[p].stream.value)
    ensures v.clearing && !NoneRelying(v, v.peers[p].env)
  {
    assert Relying(v, v.peers[p].stream.value);
  }

  /** A publication fails, and the RESYNC for it is published and broadcast. */
  lemma OneFailure(w: World, env: string, flag: Flag) returns (v: World, steps: seq<Step>)
    requires Initial(w)
    ensures Runs(w, steps) && Gapless(w, steps) && v == Run(w, steps)
    ensures v.up && !v.owed && v.clearing && Resync !in v.bus && v.peers == w.peers
  {
    hide Can, Do, NoGap;
    var job := Patched(env, flag, 0);
    FailsOnce(w, env, flag);
    RunExtends(w, [], SubscriptionUp);
    v, steps := Do(w, SubscriptionUp), [] + [SubscriptionUp];
    RunExtends(w, steps, Commit(Put(env, flag, 0)));
    v, steps := Do(v, Commit(Put(env, flag, 0))), steps + [Commit(Put(env, flag, 0))];
    RunExtends(w, steps, PublishFails(job, false, false, false));
    v, steps := Do(v, PublishFails(job, false, false, false)), steps + [PublishFails(job, false, false, false)];
    Resyncs(v);
    RunExtends(w, steps, PublishResync);
    v, steps := Do(v, PublishResync), steps + [PublishResync];
    RunExtends(w, steps, Relay(Resync, false));
    v, steps := Do(v, Relay(Resync, false)), steps + [Relay(Resync, false)];
  }

  lemma FailsOnce(w: World, env: string, flag: Flag)
    requires Initial(w)
    ensures Can(w, SubscriptionUp) && NoGap(w, SubscriptionUp)
    ensures var a := Do(w, SubscriptionUp);
            && Can(a, Commit(Put(env, flag, 0))) && NoGap(a, Commit(Put(env, flag, 0)))
            && var b := Do(a, Commit(Put(env, flag, 0)));
               var fails := PublishFails(Patched(env, flag, 0), false, false, false);
               && Can(b, fails) && NoGap(b, fails)
               && var c := Do(b, fails);
                  c.up && c.owed && Resync !in c.bus && c.peers == w.peers
  {
    var put := Put(env, flag, 0);
    var db := Do(w, SubscriptionUp).db;
    assert Touches(db, put, Slot(env, flag.key)) && JobFor(db, put, Slot(env, flag.key)) == Patched(env, flag, 0);
  }

  lemma Resyncs(w: World)
    requires w.up && w.owed && Resync !in w.bus
    ensures Can(w, PublishResync) && NoGap(w, PublishResync)
    ensures var a := Do(w, PublishResync);
            && Can(a, Relay(Resync, false)) && NoGap(a, Relay(Resync, false))
            && var b := Do(a, Relay(Resync, false));
               b.up && !b.owed && b.clearing && Resync !in b.bus && b.peers == w.peers
  {
  }
}
