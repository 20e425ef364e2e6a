/** The Node client as a state machine: what each handler does to the client's whole state. */
module ClientSpec {
  import opened Options
  import opened Flags
  import opened Revisions

  /** A replay in progress. */
  datatype Staging = Staging(flags: map<string, Flag>, marks: map<string, Mark>)

  /** The poll fallback. */
  datatype Polls = Polls(
    active: bool,                 // _polling
    generation: nat,              // _syncGeneration
    shared: Option<nat>,          // the request behind _pollPromise
    fetches: map<nat, nat>,       // unanswered snapshot requests and the generation each was issued in
    next: nat)

  datatype Client = Client(
    threshold: Option<nat>,       // failed reconnects before polling; None stands for Infinity
    live: Live,                   // _flagCache and _revisions
    core: map<string, Flag>,      // the evaluation store
    staged: Option<Staging>,
    ready: bool,
    hydrated: bool,
    pending: bool,                // connect() was called and not undone by disconnect()
    closed: bool,                 // _userClosed
    streaming: bool,              // an EventSource is open
    timer: bool,                  // a reconnect is scheduled
    attempts: nat,
    polls: Polls)

  /** An entry of the persisted snapshot: a property of a JSON object. */
  datatype Stored = Stored(key: string, flag: Flag)

  /** Everything that can happen to a client. A missing response is a failed or malformed one. */
  datatype Input =
    | Connect(stored: Option<seq<Stored>>)
    | Connected
    | Update(event: Event)
    | Ready
    | StreamError
    | ReconnectTimer
    | PollTick
    | FetchSettled(id: nat, response: Option<seq<Flag>>)
    | Disconnect

  function Fresh(threshold: Option<nat>): Client {
    Client(threshold, Live(map[], map[]), map[], None, false, false, false, false, false, false, 0,
           Polls(false, 0, None, map[], 0))
  }

  /** Timers and streams deliver only while they exist. */
  predicate Enabled(c: Client, input: Input) {
    match input
    case Connect(_) => true
    case Disconnect => true
    case Connected => c.streaming
    case Update(_) => c.streaming
    case Ready => c.streaming
    case StreamError => c.streaming
    case ReconnectTimer => c.timer
    case PollTick => c.polls.active
    case FetchSettled(id, _) => id in c.polls.fetches
  }

  predicate Keyed(flags: map<string, Flag>) {
    forall k :: k in flags ==> flags[k].key == k
  }

  /** The map a full snapshot stands for; later entries win. */
  function Target(flags: seq<Flag>): (m: map<string, Flag>)
    ensures Keyed(m)
  {
    if |flags| == 0 then map[]
    else Target(flags[..|flags| - 1])[flags[|flags| - 1].key := flags[|flags| - 1]]
  }

  function Stage(s: Staging, e: Event): Staging {
    if e.Unrecognized? then s else Staging(SetFlag(s.flags, e), SetMark(s.marks, e))
  }

  function ApplyDelta(c: Client, e: Event): Client {
    if c.staged.Some? then c.(staged := Some(Stage(c.staged.value, e)))
    else
      var live := Deliver(c.live, e);
      c.(live := live, core := live.cache)
  }

  function Replace(c: Client, flags: map<string, Flag>, marks: map<string, Mark>): Client {
    c.(live := Live(flags, marks), core := flags)
  }

  /** A complete snapshot went live: connect() can resolve. */
  function GoReady(c: Client): Client {
    c.(hydrated := true, ready := true)
  }

  function OnReady(c: Client): Client {
    if c.staged.None? then c
    else GoReady(Replace(c.(staged := None), c.staged.value.flags, c.staged.value.marks))
  }

  function IssuePoll(p: Polls): Polls {
    if p.shared.Some? then p
    else p.(shared := Some(p.next), fetches := p.fetches[p.next := p.generation], next := p.next + 1)
  }

  function StartPolling(p: Polls): Polls {
    if p.active then p else IssuePoll(p.(active := true))
  }

  function StopPolling(p: Polls): Polls {
    p.(generation := p.generation + 1, shared := None, active := false)
  }

  function SettlePoll(p: Polls, id: nat): Polls {
    p.(fetches := p.fetches - {id}, shared := if p.shared == Some(id) then None else p.shared)
  }

  predicate OverThreshold(c: Client) {
    c.threshold.Some? && c.attempts >= c.threshold.value
  }

  function ScheduleReconnect(c: Client): Client {
    if c.closed || c.timer then c
    else
      var failed := c.(streaming := false, timer := true, attempts := c.attempts + 1, staged := None);
      if OverThreshold(failed) then failed.(polls := StartPolling(c.polls)) else failed
  }

  /** The response to a snapshot request is used only in the generation it was issued in. */
  predicate Usable(c: Client, id: nat) {
    id in c.polls.fetches && c.polls.fetches[id] == c.polls.generation && !c.closed
  }

  function SettleFetch(c: Client, id: nat, response: Option<seq<Flag>>): Client {
    var applied := if response.Some? && Usable(c, id) then GoReady(Replace(c, Target(response.value), map[])) else c;
    applied.(polls := SettlePoll(c.polls, id))
  }

  /** Stored flags overlay the cache under their entry's key, and the evaluation store under their own. */
  function CacheOverlay(cache: map<string, Flag>, entries: seq<Stored>): map<string, Flag> {
    if |entries| == 0 then cache
    else CacheOverlay(cache, entries[..|entries| - 1])[entries[|entries| - 1].key := entries[|entries| - 1].flag]
  }

  function CoreOverlay(core: map<string, Flag>, entries: seq<Stored>): map<string, Flag> {
    if |entries| == 0 then core
    else CoreOverlay(core, entries[..|entries| - 1])[entries[|entries| - 1].flag.key := entries[|entries| - 1].flag]
  }

  function Hydrate(c: Client, stored: Option<seq<Stored>>): Client {
    match stored
    case None => c
    case Some(entries) =>
      c.(live := c.live.(cache := CacheOverlay(c.live.cache, entries)), core := CoreOverlay(c.core, entries),
         hydrated := c.hydrated || !c.ready)
  }

  predicate WellKeyed(entries: seq<Stored>) {
    forall i :: 0 <= i < |entries| ==> entries[i].flag.key == entries[i].key
  }

  /** Storage gives back a snapshot as the client writes it: every flag under its own key. */
  predicate Trusted(input: Input) {
    input.Connect? && input.stored.Some? ==> WellKeyed(input.stored.value)
  }

  function Next(c: Client, input: Input): Client
    requires Enabled(c, input)
  {
    match input
    case Connect(stored) =>
      if c.ready || c.pending then c
      else Hydrate(c.(closed := false, pending := true), stored).(streaming := true)
    case Connected =>
      c.(staged := Some(Staging(map[], map[])), attempts := 0, polls := StopPolling(c.polls))
    case Update(e) => ApplyDelta(c, e)
    case Ready => OnReady(c)
    case StreamError => ScheduleReconnect(c)
    case ReconnectTimer => if c.closed then c.(timer := false) else c.(timer := false, streaming := true)
    case PollTick => if c.closed then c else c.(polls := IssuePoll(c.polls))
    case FetchSettled(id, response) => SettleFetch(c, id, response)
    case Disconnect => Close(c)
  }

  function Close(c: Client): Client {
    c.(closed := true, timer := false, streaming := false, ready := false, staged := None,
       pending := false, attempts := 0, polls := StopPolling(c.polls))
  }

  // ---- The invariant of every reachable client ----

  /** Between disconnect() and connect() nothing runs. */
  predicate Idle(c: Client) {
    !c.streaming && !c.timer && !c.polls.active && !c.ready && c.staged.None? && c.attempts == 0
  }

  /** The evaluation store mirrors the cache, and flags sit under their own keys. */
  predicate Mirrored(c: Client) {
    && c.core == c.live.cache && Keyed(c.live.cache)
    && (c.staged.Some? ==> Keyed(c.staged.value.flags))
  }

  /** Exactly one of stream and reconnect timer while connected; polling excludes a replay and means that
      reconnects keep failing. */
  predicate Controlled(c: Client) {
    && (if c.pending then !c.closed && (c.streaming <==> !c.timer) else Idle(c))
    && (c.staged.Some? ==> c.streaming)
    && (c.ready ==> c.hydrated)
    && (c.polls.active ==> c.staged.None? && OverThreshold(c))
  }

  /** At most one request of the current generation is unanswered: the shared one. */
  predicate Polled(p: Polls) {
    && (p.shared.Some? ==> p.active && p.shared.value in p.fetches && p.fetches[p.shared.value] == p.generation)
    && (forall id :: id in p.fetches ==> FetchInOrder(p, id))
  }

  predicate FetchInOrder(p: Polls, id: nat) {
    && id in p.fetches
    && id < p.next
    && p.fetches[id] <= p.generation
    && (p.fetches[id] == p.generation ==> p.shared == Some(id))
  }

  predicate Consistent(c: Client) {
    Mirrored(c) && Controlled(c) && Polled(c.polls)
  }

  lemma ConsistentIsMirrored(c: Client)
    requires Consistent(c)
    ensures c.core == c.live.cache && Keyed(c.live.cache) && (c.staged.Some? ==> Keyed(c.staged.value.flags))
  {
  }

  lemma FreshIsConsistent(threshold: Option<nat>)
    ensures Consistent(Fresh(threshold))
  {
  }

  /** Hydration keeps the mirror exactly when the stored flags sit under their own keys. */
  lemma HydrationMirrorsIff(c: Client, entries: seq<Stored>)
    requires Mirrored(c)
    requires forall i, j :: 0 <= i < j < |entries| ==> entries[i].key != entries[j].key
    ensures Mirrored(Hydrate(c, Some(entries))) <==> WellKeyed(entries)
  {
    if WellKeyed(entries) { OverlaysAgree(c.live.cache, entries); }
    forall i | 0 <= i < |entries|
      ensures entries[i].key in CacheOverlay(c.live.cache, entries)
           && CacheOverlay(c.live.cache, entries)[entries[i].key] == entries[i].flag
    {
      EntryStays(c.live.cache, entries, i);
    }
  }

  /** A stored flag under another key: the cache has it there, the evaluation store does not. */
  lemma HydrationMisplaces(threshold: Option<nat>, key: string, flag: Flag)
    requires flag.key != key
    ensures var c := Hydrate(Fresh(threshold), Some([Stored(key, flag)]));
            c.live.cache == map[key := flag] && c.core == map[flag.key := flag] && !Mirrored(c)
  {
    var entries := [Stored(key, flag)];
    assert entries[..0] == [];
    assert CacheOverlay(map[], entries) == map[key := flag] && CoreOverlay(map[], entries) == map[flag.key := flag];
    assert key !in map[flag.key := flag];
  }

  lemma {:induction false} OverlaysAgree(cache: map<string, Flag>, entries: seq<Stored>)
    requires WellKeyed(entries) && Keyed(cache)
    ensures CoreOverlay(cache, entries) == CacheOverlay(cache, entries) && Keyed(CacheOverlay(cache, entries))
  {
    if |entries| > 0 { OverlaysAgree(cache, entries[..|entries| - 1]); }
  }

  lemma {:induction false} EntryStays(cache: map<string, Flag>, entries: seq<Stored>, i: nat)
    requires i < |entries| && forall i, j :: 0 <= i < j < |entries| ==> entries[i].key != entries[j].key
    ensures entries[i].key in CacheOverlay(cache, entries)
    ensures CacheOverlay(cache, entries)[entries[i].key] == entries[i].flag
  {
    if i < |entries| - 1 { EntryStays(cache, entries[..|entries| - 1], i); }
  }

  lemma NextKeepsMirrored(c: Client, input: Input)
    requires Mirrored(c) && Enabled(c, input) && Trusted(input)
    ensures Mirrored(Next(c, input))
  {
    match input {
      case Connect(stored) => if stored.Some? { OverlaysAgree(c.live.cache, stored.value); }
      case Update(e) =>
        if c.staged.Some? { StageKeepsMirrored(c, e); } else { DeliverKeepsMirrored(c, e); }
      case _ =>
    }
  }

  lemma StageKeepsMirrored(c: Client, e: Event)
    requires Mirrored(c) && c.staged.Some?
    ensures Mirrored(ApplyDelta(c, e))
  {
  }

  lemma DeliverKeepsMirrored(c: Client, e: Event)
    requires Mirrored(c) && c.staged.None?
    ensures Mirrored(ApplyDelta(c, e))
  {
    var d := Deliver(c.live, e);
    forall k | k in d.cache ensures d.cache[k].key == k {
    }
  }

  /** Losing the stream drops the replay and touches nothing that is served. */
  lemma ScheduleReconnectKeepsData(c: Client)
    ensures var d := ScheduleReconnect(c);
            d.live == c.live && d.core == c.core && (d.staged == c.staged || d.staged.None?)
  {
  }

  lemma NextKeepsControlled(c: Client, input: Input)
    requires Controlled(c) && Polled(c.polls) && Enabled(c, input)
    ensures Controlled(Next(c, input))
  {
    match input {
      case FetchSettled(id, response) => assert FetchInOrder(c.polls, id);
      case _ =>
    }
  }

  lemma IssuePollKeepsPolled(p: Polls)
    requires Polled(p) && p.active
    ensures Polled(IssuePoll(p))
  {
    forall id | id in p.fetches ensures FetchInOrder(IssuePoll(p), id) {
      assert FetchInOrder(p, id);
    }
  }

  lemma StartPollingKeepsPolled(p: Polls)
    requires Polled(p)
    ensures Polled(StartPolling(p))
  {
    var on := p.(active := true);
    forall id | id in p.fetches ensures FetchInOrder(on, id) {
      assert FetchInOrder(p, id);
    }
    IssuePollKeepsPolled(on);
  }

  lemma StopPollingKeepsPolled(p: Polls)
    requires Polled(p)
    ensures Polled(StopPolling(p))
  {
    forall id | id in p.fetches ensures FetchInOrder(StopPolling(p), id) {
      assert FetchInOrder(p, id);
    }
  }

  lemma SettlePollKeepsPolled(p: Polls, id: nat)
    requires Polled(p)
    ensures Polled(SettlePoll(p, id))
  {
    forall other | other in p.fetches && other != id ensures FetchInOrder(SettlePoll(p, id), other) {
      assert FetchInOrder(p, other);
    }
  }

  lemma NextKeepsPolled(c: Client, input: Input)
    requires Polled(c.polls) && Enabled(c, input)
    ensures Polled(Next(c, input).polls)
  {
    match input {
      case Connected => StopPollingKeepsPolled(c.polls);
      case Disconnect => StopPollingKeepsPolled(c.polls);
      case FetchSettled(id, _) => SettlePollKeepsPolled(c.polls, id);
      case PollTick => IssuePollKeepsPolled(c.polls);
      case StreamError => StartPollingKeepsPolled(c.polls);
      case _ => assert Next(c, input).polls == c.polls;
    }
  }

  /** The invariant of every reachable client. */
  lemma NextKeepsConsistent(c: Client, input: Input)
    requires Consistent(c) && Enabled(c, input) && Trusted(input)
    ensures Consistent(Next(c, input))
  {
    NextKeepsMirrored(c, input);
    NextKeepsControlled(c, input);
    NextKeepsPolled(c, input);
  }

  // ---- Whole runs ----

  predicate Runs(c: Client, inputs: seq<Input>)
    decreases |inputs|, 0
  {
    |inputs| > 0 ==>
      Runs(c, inputs[..|inputs| - 1])
      && Enabled(Run(c, inputs[..|inputs| - 1]), inputs[|inputs| - 1])
  }

  function Run(c: Client, inputs: seq<Input>): Client
    requires Runs(c, inputs)
    decreases |inputs|, 1
  {
    if |inputs| == 0 then c
    else Next(Run(c, inputs[..|inputs| - 1]), inputs[|inputs| - 1])
  }

  predicate AllTrusted(inputs: seq<Input>) {
    forall i :: 0 <= i < |inputs| ==> Trusted(inputs[i])
  }

  lemma {:induction false} RunKeepsConsistent(c: Client, inputs: seq<Input>)
    requires Consistent(c) && Runs(c, inputs) && AllTrusted(inputs)
    ensures Consistent(Run(c, inputs))
  {
    if |inputs| > 0 {
      RunKeepsConsistent(c, inputs[..|inputs| - 1]);
      NextKeepsConsistent(Run(c, inputs[..|inputs| - 1]), inputs[|inputs| - 1]);
    }
  }

  // ---- A poll response counts only if nothing took over meanwhile ----

  predicate TakesOver(input: Input) {
    input.Connected? || input.Disconnect?
  }

  function TakeOvers(inputs: seq<Input>): nat {
    if |inputs| == 0 then 0
    else TakeOvers(inputs[..|inputs| - 1]) + (if TakesOver(inputs[|inputs| - 1]) then 1 else 0)
  }

  lemma NextGeneration(c: Client, input: Input)
    requires Enabled(c, input)
    ensures Next(c, input).polls.generation == c.polls.generation + (if TakesOver(input) then 1 else 0)
    ensures !c.closed && !TakesOver(input) ==> !Next(c, input).closed
  {
    match input {
      case StreamError => ScheduleReconnectGeneration(c);
      case _ =>
    }
  }

  lemma ScheduleReconnectGeneration(c: Client)
    ensures ScheduleReconnect(c).polls.generation == c.polls.generation
    ensures ScheduleReconnect(c).closed == c.closed
  {
  }

  /** A request keeps the generation it was issued in, and its number is not used again. */
  predicate SameFetch(p: Polls, q: Polls, id: nat) {
    id < q.next && (id in q.fetches ==> id in p.fetches && q.fetches[id] == p.fetches[id])
  }

  lemma NextFetches(c: Client, input: Input, id: nat)
    requires Enabled(c, input) && id < c.polls.next
    ensures SameFetch(c.polls, Next(c, input).polls, id)
  {
    match input {
      case StreamError => ScheduleReconnectFetches(c, id);
      case _ =>
    }
  }

  lemma ScheduleReconnectFetches(c: Client, id: nat)
    requires id < c.polls.next
    ensures SameFetch(c.polls, ScheduleReconnect(c).polls, id)
  {
  }

  lemma {:induction false} GenerationCountsTakeOvers(c: Client, inputs: seq<Input>)
    requires Runs(c, inputs)
    ensures Run(c, inputs).polls.generation == c.polls.generation + TakeOvers(inputs)
    ensures TakeOvers(inputs) == 0 && !c.closed ==> !Run(c, inputs).closed
  {
    if |inputs| > 0 {
      GenerationCountsTakeOvers(c, inputs[..|inputs| - 1]);
      NextGeneration(Run(c, inputs[..|inputs| - 1]), inputs[|inputs| - 1]);
    }
  }

  lemma {:induction false} FetchKeepsGeneration(c: Client, inputs: seq<Input>, id: nat)
    requires Runs(c, inputs) && id < c.polls.next
    ensures SameFetch(c.polls, Run(c, inputs).polls, id)
  {
    if |inputs| > 0 {
      FetchKeepsGeneration(c, inputs[..|inputs| - 1], id);
      NextFetches(Run(c, inputs[..|inputs| - 1]), inputs[|inputs| - 1], id);
    }
  }

  /** The response to a request is applied exactly when no stream connected and no disconnect() happened
      since the request was issued. */
  lemma PollAppliedIffUninterrupted(c: Client, inputs: seq<Input>, id: nat)
    requires Consistent(c) && !c.closed && c.polls.shared == Some(id)
    requires Runs(c, inputs) && id in Run(c, inputs).polls.fetches
    ensures Usable(Run(c, inputs), id) <==> TakeOvers(inputs) == 0
  {
    GenerationCountsTakeOvers(c, inputs);
    FetchKeepsGeneration(c, inputs, id);
  }

  // ---- Snapshot atomicity, against the history of inputs ----

  /** The events of the replay that is open at the end of a history, if one is. */
  function OpenReplay(inputs: seq<Input>): Option<seq<Event>> {
    if |inputs| == 0 then None else OpenAfter(OpenReplay(inputs[..|inputs| - 1]), inputs[|inputs| - 1])
  }

  function OpenAfter(before: Option<seq<Event>>, input: Input): Option<seq<Event>> {
    match input
    case Connected => Some([])
    case Update(e) => if before.Some? then Some(before.value + [e]) else None
    case Ready => None
    case StreamError => None
    case Disconnect => None
    case _ => before
  }

  function StageAll(es: seq<Event>): Staging {
    if |es| == 0 then Staging(map[], map[])
    else Stage(StageAll(es[..|es| - 1]), es[|es| - 1])
  }

  /** What a client that started out as `c` is serving after a history: the last complete snapshot of a replay or a
      poll, followed by the live events accepted since and the stored flags of a later connect(). A replay counts
      only from its `ready` on. */
  function Served(c: Client, inputs: seq<Input>): Live
    requires Runs(c, inputs)
    decreases |inputs|
  {
    if |inputs| == 0 then c.live
    else
      var init := inputs[..|inputs| - 1];
      var before := Served(c, init);
      match inputs[|inputs| - 1]
      case Ready =>
        if OpenReplay(init).Some? then
          var replay := StageAll(OpenReplay(init).value);
          Live(replay.flags, replay.marks)
        else before
      case Update(e) => if OpenReplay(init).Some? then before else Deliver(before, e)
      case FetchSettled(id, response) =>
        if response.Some? && Usable(Run(c, init), id) then Live(Target(response.value), map[]) else before
      case Connect(stored) =>
        if stored.Some? && !Run(c, init).ready && !Run(c, init).pending
        then before.(cache := CacheOverlay(before.cache, stored.value)) else before
      case _ => before
  }

  lemma {:induction false} StagedIsOpenReplay(c: Client, inputs: seq<Input>)
    requires Consistent(c) && c.staged.None? && Runs(c, inputs) && AllTrusted(inputs)
    ensures match OpenReplay(inputs)
            case None => Run(c, inputs).staged.None?
            case Some(es) => Run(c, inputs).staged == Some(StageAll(es))
  {
    if |inputs| > 0 {
      var init := inputs[..|inputs| - 1];
      StagedIsOpenReplay(c, init);
      RunKeepsConsistent(c, init);
      match inputs[|inputs| - 1] {
        case Update(e) =>
          if OpenReplay(init).Some? {
            var es := OpenReplay(init).value;
            assert (es + [e])[..|es|] == es;
          }
        case _ =>
      }
    }
  }

  /** One input changes what is served exactly as the history says. */
  lemma ServedStep(c: Client, input: Input, open: Option<seq<Event>>)
    requires Consistent(c) && Enabled(c, input)
    requires match open case None => c.staged.None? case Some(es) => c.staged == Some(StageAll(es))
    ensures var live := Next(c, input).live;
            match input
            case Ready =>
              live == if open.Some? then Live(StageAll(open.value).flags, StageAll(open.value).marks) else c.live
            case Update(e) => live == if open.Some? then c.live else Deliver(c.live, e)
            case FetchSettled(id, response) =>
              live == if response.Some? && Usable(c, id) then Live(Target(response.value), map[]) else c.live
            case Connect(stored) =>
              live == if stored.Some? && !c.ready && !c.pending
                      then c.live.(cache := CacheOverlay(c.live.cache, stored.value)) else c.live
            case _ => live == c.live
  {
    match input {
      case StreamError => ScheduleReconnectKeepsData(c);
      case _ =>
    }
  }

  /** Over whole runs, flags and revisions are exactly what the history says, in the cache and in the
      evaluation store: a replay that is cut off at any point leaves no trace. */
  lemma {:induction false} SnapshotAtomicity(c: Client, inputs: seq<Input>)
    requires Consistent(c) && c.staged.None? && Runs(c, inputs) && AllTrusted(inputs)
    ensures Run(c, inputs).live == Served(c, inputs)
    ensures Run(c, inputs).core == Served(c, inputs).cache
  {
    RunKeepsConsistent(c, inputs);
    if |inputs| > 0 {
      var init := inputs[..|inputs| - 1];
      SnapshotAtomicity(c, init);
      StagedIsOpenReplay(c, init);
      RunKeepsConsistent(c, init);
      ServedStep(Run(c, init), inputs[|inputs| - 1], OpenReplay(init));
    }
  }

  // ---- A stored snapshot is complete only over an empty cache ----

  /** The stored snapshot has a flag for everything in the cache. */
  predicate Covers(entries: seq<Stored>, cache: map<string, Flag>) {
    forall k :: k in cache ==> exists i :: 0 <= i < |entries| && entries[i].key == k
  }

  lemma {:induction false} OverlayLookup(cache: map<string, Flag>, entries: seq<Stored>, key: string)
    ensures var overlay, snapshot := CacheOverlay(cache, entries), CacheOverlay(map[], entries);
            if exists i :: 0 <= i < |entries| && entries[i].key == key
            then key in snapshot && Lookup(overlay, key) == Lookup(snapshot, key)
            else key !in snapshot && Lookup(overlay, key) == Lookup(cache, key)
  {
    if |entries| > 0 {
      var init := entries[..|entries| - 1];
      OverlayLookup(cache, init, key);
      assert forall i :: 0 <= i < |init| ==> init[i] == entries[i];
    }
  }

  /** Hydration replaces what was served by the stored snapshot exactly when the snapshot covers it. */
  lemma HydrationReplacesIff(cache: map<string, Flag>, entries: seq<Stored>)
    ensures CacheOverlay(cache, entries) == CacheOverlay(map[], entries) <==> Covers(entries, cache)
  {
    var overlay, snapshot := CacheOverlay(cache, entries), CacheOverlay(map[], entries);
    forall k ensures Covers(entries, cache) ==> Lookup(overlay, k) == Lookup(snapshot, k) {
      OverlayLookup(cache, entries, k);
    }
    if Covers(entries, cache) {
      assert forall k :: (k in overlay <==> Lookup(overlay, k).Some?) && (k in snapshot <==> Lookup(snapshot, k).Some?);
      SameFlags(overlay, snapshot);
    } else {
      var k :| k in cache && forall i :: 0 <= i < |entries| ==> entries[i].key != k;
      OverlayLookup(cache, entries, k);
      assert Lookup(overlay, k).Some?;
    }
  }

  lemma SameFlags(m: map<string, Flag>, n: map<string, Flag>)
    requires forall k :: Lookup(m, k) == Lookup(n, k)
    ensures m == n
  {
    SameMap(m, n);
  }

  /** What a history promises if a stored snapshot is taken for a complete one: the last snapshot of any kind, followed
      by the live events accepted since. */
  function Promised(c: Client, inputs: seq<Input>): Live
    requires Runs(c, inputs)
    decreases |inputs|
  {
    if |inputs| == 0 then c.live
    else
      var init := inputs[..|inputs| - 1];
      PromisedStep(Promised(c, init), Run(c, init), OpenReplay(init), inputs[|inputs| - 1])
  }

  function PromisedStep(before: Live, c: Client, open: Option<seq<Event>>, input: Input): Live
    requires Enabled(c, input)
  {
    match input
    case Ready => if open.Some? then Live(StageAll(open.value).flags, StageAll(open.value).marks) else before
    case Update(e) => if open.Some? then before else Deliver(before, e)
    case FetchSettled(id, response) =>
      if response.Some? && Usable(c, id) then Live(Target(response.value), map[]) else before
    case Connect(stored) =>
      if Hydrates(c, input) then before.(cache := CacheOverlay(map[], stored.value)) else before
    case _ => before
  }

  /** The input takes over a stored snapshot. */
  predicate Hydrates(c: Client, input: Input) {
    input.Connect? && input.stored.Some? && !c.ready && !c.pending
  }

  /** Every hydration of the run covers what was in the cache. */
  predicate AlwaysCovered(c: Client, inputs: seq<Input>)
    requires Runs(c, inputs)
    decreases |inputs|
  {
    |inputs| == 0
    || (AlwaysCovered(c, inputs[..|inputs| - 1])
        && var before, last := Run(c, inputs[..|inputs| - 1]), inputs[|inputs| - 1];
           Hydrates(before, last) ==> Covers(last.stored.value, before.live.cache))
  }

  /** In every state of the run the client serves what was promised. */
  predicate AlwaysAsPromised(c: Client, inputs: seq<Input>)
    requires Runs(c, inputs)
    decreases |inputs|
  {
    Run(c, inputs).live == Promised(c, inputs) && (|inputs| == 0 || AlwaysAsPromised(c, inputs[..|inputs| - 1]))
  }

  /** Over a whole run the client always serves the last complete snapshot, stored ones included, followed by the live
      events accepted since, exactly when every hydration covers what was in the cache. */
  lemma {:induction false} ServesPromisedIff(c: Client, inputs: seq<Input>)
    requires Consistent(c) && c.staged.None? && Runs(c, inputs) && AllTrusted(inputs)
    ensures AlwaysAsPromised(c, inputs) <==> AlwaysCovered(c, inputs)
  {
    if |inputs| > 0 {
      var init, last := inputs[..|inputs| - 1], inputs[|inputs| - 1];
      ServesPromisedIff(c, init);
      StagedIsOpenReplay(c, init);
      RunKeepsConsistent(c, init);
      ServedStep(Run(c, init), last, OpenReplay(init));
      if Hydrates(Run(c, init), last) { HydrationReplacesIff(Run(c, init).live.cache, last.stored.value); }
    }
  }

  predicate Unconnected(c: Client) {
    Idle(c) && !c.pending && c.polls.fetches == map[]
  }

  lemma {:induction false} NothingBeforeConnect(threshold: Option<nat>, inputs: seq<Input>)
    requires Runs(Fresh(threshold), inputs) && forall i :: 0 <= i < |inputs| ==> !inputs[i].Connect?
    ensures Unconnected(Run(Fresh(threshold), inputs))
    ensures Run(Fresh(threshold), inputs).live == Live(map[], map[])
  {
    if |inputs| > 0 {
      NothingBeforeConnect(threshold, inputs[..|inputs| - 1]);
    }
  }

  /** The first connect() of a client serves exactly the stored snapshot. */
  lemma FirstConnectServesStored(threshold: Option<nat>, inputs: seq<Input>, entries: seq<Stored>)
    requires Runs(Fresh(threshold), inputs) && forall i :: 0 <= i < |inputs| ==> !inputs[i].Connect?
    ensures Enabled(Run(Fresh(threshold), inputs), Connect(Some(entries)))
    ensures Next(Run(Fresh(threshold), inputs), Connect(Some(entries))).live
         == Live(CacheOverlay(map[], entries), map[])
  {
    NothingBeforeConnect(threshold, inputs);
  }

  /** A later one may serve more: flag `a` of an earlier session beside the stored flag `b`. */
  lemma SecondConnectServesMore(threshold: Option<nat>, a: Flag, b: Flag, revision: int) returns (inputs: seq<Input>)
    requires a.key != b.key
    ensures inputs == [Connect(None), Connected, Update(Upsert(a, Some(revision))), Ready, Disconnect,
                       Connect(Some([Stored(b.key, b)]))]
    ensures Runs(Fresh(threshold), inputs) && AllTrusted(inputs)
    ensures Run(Fresh(threshold), inputs).live.cache == map[a.key := a, b.key := b]
    ensures Promised(Fresh(threshold), inputs).cache == map[b.key := b]
  {
    hide Runs, Run, Promised, OpenReplay;
    var c, e := Fresh(threshold), Upsert(a, Some(revision));
    NothingYet(c);
    inputs := Extended(c, [], Connect(None));
    inputs := Extended(c, inputs, Connected);
    inputs := Extended(c, inputs, Update(e));
    assert StageAll([] + [e]) == Staging(map[a.key := a], map[a.key := Mark(revision, false)]) by {
      assert ([] + [e])[..0] == [];
    }
    inputs := Extended(c, inputs, Ready);
    assert Run(c, inputs).live.cache == Promised(c, inputs).cache == map[a.key := a];
    inputs := Extended(c, inputs, Disconnect);
    assert !Run(c, inputs).ready && !Run(c, inputs).pending;
    var stored := [Stored(b.key, b)];
    OneStored(map[a.key := a], b);
    OneStored(map[], b);
    inputs := Extended(c, inputs, Connect(Some(stored)));
  }

  lemma OneStored(cache: map<string, Flag>, flag: Flag)
    ensures CacheOverlay(cache, [Stored(flag.key, flag)]) == cache[flag.key := flag]
  {
    assert [Stored(flag.key, flag)][..0] == [];
  }

  lemma NothingYet(c: Client)
    ensures Runs(c, []) && Run(c, []) == c && Promised(c, []) == c.live && OpenReplay([]) == None
  {
  }

  lemma Extended(c: Client, inputs: seq<Input>, input: Input) returns (longer: seq<Input>)
    requires Runs(c, inputs) && Enabled(Run(c, inputs), input)
    ensures longer == inputs + [input] && Runs(c, longer) && Run(c, longer) == Next(Run(c, inputs), input)
    ensures OpenReplay(longer) == OpenAfter(OpenReplay(inputs), input)
    ensures Promised(c, longer) == PromisedStep(Promised(c, inputs), Run(c, inputs), OpenReplay(inputs), input)
  {
    hide Next, Enabled, OpenAfter, PromisedStep;
    longer := inputs + [input];
    assert longer[..|longer| - 1] == inputs;
  }

  // ---- Backoff ----

  function Power2(n: nat): nat {
    if n == 0 then 1 else 2 * Power2(n - 1)
  }

  /** Exponential growth up to the maximum. */
  function CappedDelay(base: real, max: real, attempts: nat): real {
    var exponential := base * Power2(attempts) as real;
    if max <= exponential then max else exponential
  }

  /** The reconnect delay in milliseconds; `jitter` is a random number below one. */
  function BackoffDelay(base: real, max: real, attempts: nat, jitter: real): real {
    var capped := CappedDelay(base, max, attempts);
    capped + jitter * capped * 0.3
  }

  /** Without jitter the delay starts at the base and doubles up to the maximum. */
  lemma BackoffDoubles(base: real, max: real, attempts: nat)
    requires 0.0 <= base && 0.0 <= max
    ensures BackoffDelay(base, max, 0, 0.0) == (if max <= base then max else base)
    ensures var d := BackoffDelay(base, max, attempts, 0.0);
            BackoffDelay(base, max, attempts + 1, 0.0) == (if max <= 2.0 * d then max else 2.0 * d)
  {
    var x := base * Power2(attempts) as real;
    assert Power2(attempts + 1) as real == 2.0 * Power2(attempts) as real;
    assert base * Power2(attempts + 1) as real == 2.0 * x;
  }

  /** Jitter adds up to 30 percent, beyond the maximum too. */
  lemma JitterAddsUpTo30Percent(base: real, max: real, attempts: nat, jitter: real)
    requires 0.0 <= base && 0.0 <= max && 0.0 <= jitter < 1.0
    ensures var d := BackoffDelay(base, max, attempts, 0.0);
            0.0 <= d <= BackoffDelay(base, max, attempts, jitter) <= 1.3 * d && d <= max
  {
    hide CappedDelay;
    var c := CappedDelay(base, max, attempts);
    CappedDelayBounds(base, max, attempts);
    JitterBounds(jitter, c);
    assert BackoffDelay(base, max, attempts, 0.0) == c;
    assert BackoffDelay(base, max, attempts, jitter) == c + jitter * c * 0.3;
  }

  /** The delay stays within the maximum whatever the jitter exactly when the capped delay leaves room for all of
      it. */
  lemma WithinMaxIff(base: real, max: real, attempts: nat)
    requires 0.0 <= base && 0.0 <= max
    ensures (forall jitter | 0.0 <= jitter < 1.0 :: BackoffDelay(base, max, attempts, jitter) <= max)
       <==> 1.3 * CappedDelay(base, max, attempts) <= max
  {
    if 1.3 * CappedDelay(base, max, attempts) > max {
      var jitter := JitterExceedsMax(base, max, attempts);
    } else {
      forall jitter | 0.0 <= jitter < 1.0 ensures BackoffDelay(base, max, attempts, jitter) <= max {
        JitterAddsUpTo30Percent(base, max, attempts, jitter);
        NoJitter(base, max, attempts);
      }
    }
  }

  lemma NoJitter(base: real, max: real, attempts: nat)
    ensures BackoffDelay(base, max, attempts, 0.0) == CappedDelay(base, max, attempts)
  {
  }

  /** Otherwise some jitter takes the delay beyond the maximum. */
  lemma JitterExceedsMax(base: real, max: real, attempts: nat) returns (jitter: real)
    requires 0.0 <= base && 0.0 <= max < 1.3 * CappedDelay(base, max, attempts)
    ensures 0.0 <= jitter < 1.0 && BackoffDelay(base, max, attempts, jitter) > max
  {
    hide CappedDelay;
    var c := CappedDelay(base, max, attempts);
    CappedDelayBounds(base, max, attempts);
    var room := (max - c) / (0.3 * c);
    jitter := (1.0 + room) / 2.0;
    DivisionUndone(max - c, 0.3 * c);
    BelowOne(room, 0.3 * c);
    assert jitter * c * 0.3 == (0.3 * c + (max - c)) / 2.0;
  }

  lemma DivisionUndone(x: real, y: real)
    requires y > 0.0 && 0.0 <= x < y
    ensures x / y * y == x && 0.0 <= x / y
  {
  }

  lemma BelowOne(room: real, y: real)
    requires y > 0.0 && room * y < y
    ensures room < 1.0
  {
    if room >= 1.0 { ProductNotNegative(room - 1.0, y); }
  }

  lemma ProductNotNegative(x: real, y: real)
    requires 0.0 <= x && 0.0 <= y
    ensures 0.0 <= x * y
  {
  }

  lemma JitterBounds(jitter: real, c: real)
    requires 0.0 <= jitter < 1.0 && 0.0 <= c
    ensures 0.0 <= jitter * c <= c
  {
    assert (1.0 - jitter) * c >= 0.0;
  }

  lemma CappedDelayBounds(base: real, max: real, attempts: nat)
    requires 0.0 <= base && 0.0 <= max
    ensures 0.0 <= CappedDelay(base, max, attempts) <= max
  {
    assert base * Power2(attempts) as real >= 0.0;
  }
}
