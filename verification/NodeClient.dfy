/** The Node client itself: its fields, and its handlers as they run. */
module NodeClient {
  import opened Options
  import opened Flags
  import opened Stores
  import opened Revisions
  import opened ClientSpec

  /** One call of the change listeners: the key passed and the flags a listener could evaluate then. */
  datatype Notice = Notice(key: string, seen: map<string, Flag>)

  predicate DistinctKeys(flags: seq<Flag>) {
    forall i, j :: 0 <= i < j < |flags| ==> flags[i].key != flags[j].key
  }

  /** The keys whose flag differs between two flag sets. */
  function Changed(before: map<string, Flag>, after: map<string, Flag>): set<string> {
    set k | k in before.Keys + after.Keys && Lookup(before, k) != Lookup(after, k)
  }

  /** Every element of the set once, in some order. */
  ghost predicate Lists(order: seq<string>, elements: set<string>) {
    && (forall i, j :: 0 <= i < j < |order| ==> order[i] != order[j])
    && (forall k :: k in order <==> k in elements)
  }

  function Announce(order: seq<string>, seen: map<string, Flag>): seq<Notice> {
    seq(|order|, i requires 0 <= i < |order| => Notice(order[i], seen))
  }

  lemma {:induction false} TargetLookup(flags: seq<Flag>, key: string)
    ensures key in Target(flags) <==> exists i :: 0 <= i < |flags| && flags[i].key == key
    ensures DistinctKeys(flags) ==> forall i :: 0 <= i < |flags| && flags[i].key == key ==>
              key in Target(flags) && Target(flags)[key] == flags[i]
  {
    if |flags| > 0 {
      TargetLookup(flags[..|flags| - 1], key);
      assert flags[|flags| - 1] == flags[..][|flags| - 1];
    }
  }

  class CheckgateClient {
    const pollFallbackThreshold: Option<nat>
    const reconnectDelayMs: real
    const maxReconnectDelayMs: real
    const hasStorage: bool
    const core: FlagStore
    var ready: bool
    var staged: Option<map<string, Flag>>
    var stagedRevisions: Option<map<string, Mark>>
    var revisions: map<string, Mark>
    var connectPending: bool
    var sseOpen: bool
    var flagCache: map<string, Flag>
    var hydrated: bool
    var reconnectAttempts: nat
    var reconnectTimer: bool
    var userClosed: bool
    var polling: bool
    var pollTimer: bool
    var syncGeneration: nat
    var pollPromise: Option<nat>
    var requests: map<nat, nat>   // unanswered snapshot requests and the generation captured by each
    var requestCount: nat
    var notices: seq<Notice>      // the calls of the change listeners so far
    var saved: Option<map<string, Flag>>  // what was last written to the storage adapter

    ghost function State(): Client
      reads this, core
    {
      Client(pollFallbackThreshold, Live(flagCache, revisions), core.flags,
             if staged.Some? then Some(Staging(staged.value, stagedRevisions.GetOr(map[]))) else None,
             ready, hydrated, connectPending, userClosed, sseOpen, reconnectTimer, reconnectAttempts,
             Polls(polling, syncGeneration, pollPromise, requests, requestCount))
    }

    ghost predicate Valid()
      reads this, core
    {
      && Consistent(State())
      && (staged.Some? <==> stagedRevisions.Some?)
      && (pollTimer <==> polling)
      && (saved.Some? ==> Keyed(saved.value))
    }

    constructor (threshold: Option<nat>, reconnectDelay: real, maxReconnectDelay: real, storage: bool)
      ensures Valid() && fresh(core) && State() == Fresh(threshold)
      ensures notices == [] && saved == None && hasStorage == storage
    {
      pollFallbackThreshold := threshold;
      reconnectDelayMs, maxReconnectDelayMs := reconnectDelay, maxReconnectDelay;
      hasStorage := storage;
      core := new FlagStore();
      ready, hydrated, connectPending, userClosed := false, false, false, false;
      staged, stagedRevisions, revisions, flagCache := None, None, map[], map[];
      sseOpen, reconnectAttempts, reconnectTimer := false, 0, false;
      polling, pollTimer, syncGeneration, pollPromise, requests, requestCount := false, false, 0, None, map[], 0;
      notices, saved := [], None;
    }

    method EmitChange(key: string)
      modifies this`notices
      ensures notices == old(notices) + [Notice(key, core.flags)] && State() == old(State())
    {
      notices := notices + [Notice(key, core.flags)];
    }

    method PersistCache()
      modifies this`saved
      ensures saved == (if hasStorage then Some(flagCache) else old(saved)) && State() == old(State())
    {
      if hasStorage {
        saved := Some(flagCache);
      }
    }

    /** Swaps in a full snapshot, changing only what differs. Listeners run after the whole swap, once for each
        key whose flag changed, and not at all before the client is ready. */
    method ApplySnapshot(flags: seq<Flag>, marks: map<string, Mark>) returns (ghost order: seq<string>)
      requires core.flags == flagCache
      modifies this`flagCache, this`revisions, this`notices, this`saved, core
      ensures State() == Replace(old(State()), Target(flags), marks)
      ensures flagCache == core.flags == Target(flags) && revisions == marks
      ensures DistinctKeys(flags) ==> Lists(order, Changed(old(flagCache), Target(flags)))
      ensures notices == old(notices) + (if ready then Announce(order, Target(flags)) else [])
      ensures saved == if hasStorage && |order| > 0 then Some(Target(flags)) else old(saved)
    {
      var changed := ReplaceFlags(flags);
      revisions := marks;
      order := changed;
      if |changed| == 0 { return; }
      PersistCache();
      if ready { NotifyAll(changed); }
    }

    method ReplaceFlags(flags: seq<Flag>) returns (changed: seq<string>)
      requires core.flags == flagCache
      modifies this`flagCache, core
      ensures State() == old(State()).(live := old(State()).live.(cache := Target(flags)), core := Target(flags))
      ensures DistinctKeys(flags) ==> Lists(changed, Changed(old(flagCache), Target(flags)))
    {
      hide Target, Changed, Lists, Differing;
      var newKeys, upserted := UpsertDiffering(flags);
      var removed := RemoveOthers(newKeys);
      changed := upserted + removed;
      OnlyTarget(old(flagCache), Target(flags));
      if DistinctKeys(flags) { JoinLists(upserted, removed, old(flagCache), Target(flags)); }
    }

    /** First half of a snapshot: flags that are new or different. */
    method UpsertDiffering(flags: seq<Flag>) returns (newKeys: set<string>, changed: seq<string>)
      requires core.flags == flagCache
      modifies this`flagCache, core
      ensures flagCache == old(flagCache) + Target(flags) && core.flags == flagCache
      ensures newKeys == Target(flags).Keys
      ensures DistinctKeys(flags) ==> Lists(changed, Differing(old(flagCache), Target(flags)))
    {
      newKeys, changed := {}, [];
      ghost var before := flagCache;
      for i := 0 to |flags|
        invariant flagCache == before + Target(flags[..i]) && core.flags == flagCache
        invariant newKeys == Target(flags[..i]).Keys
        invariant DistinctKeys(flags) ==> Lists(changed, Differing(before, Target(flags[..i])))
      {
        var flag := flags[i];
        TargetStep(flags, i);
        OverlayStep(before, Target(flags[..i]), flag);
        if DistinctKeys(flags) { ListsStep(before, Target(flags[..i]), flag, changed); }
        newKeys := newKeys + {flag.key};
        if !(flag.key in flagCache && flagCache[flag.key] == flag) {
          core.Upsert(flag);
          flagCache := flagCache[flag.key := flag];
          changed := changed + [flag.key];
        }
      }
      assert flags[..|flags|] == flags;
    }

    /** Second half: flags that the snapshot no longer holds. */
    method RemoveOthers(newKeys: set<string>) returns (changed: seq<string>)
      requires core.flags == flagCache
      modifies this`flagCache, core
      ensures flagCache == Restrict(old(flagCache), newKeys)
      ensures core.flags == flagCache
      ensures Lists(changed, old(flagCache).Keys - newKeys)
    {
      changed := [];
      var keys := flagCache.Keys;
      while keys != {}
        invariant keys <= old(flagCache).Keys
        invariant flagCache == Restrict(old(flagCache), newKeys + keys)
        invariant core.flags == flagCache
        invariant Lists(changed, old(flagCache).Keys - newKeys - keys)
      {
        var key :| key in keys;
        keys := keys - {key};
        if key !in newKeys {
          core.Delete(key);
          flagCache := flagCache - {key};
          changed := changed + [key];
        }
      }
    }

    method NotifyAll(changed: seq<string>)
      modifies this`notices
      ensures notices == old(notices) + Announce(changed, core.flags) && State() == old(State())
    {
      for i := 0 to |changed|
        invariant notices == old(notices) + Announce(changed[..i], core.flags)
      {
        EmitChange(changed[i]);
        assert Announce(changed[..i + 1], core.flags)
            == Announce(changed[..i], core.flags) + [Notice(changed[i], core.flags)];
      }
      assert changed[..|changed|] == changed;
    }

    /** One stream event: staged during a replay, otherwise applied unless stale. */
    method ApplyDelta(event: Event)
      requires Valid()
      modifies this`staged, this`stagedRevisions, this`revisions, this`flagCache, this`notices, this`saved, core
      ensures State() == ClientSpec.ApplyDelta(old(State()), event)
      ensures var applied := old(staged).None? && Accepts(old(State()).live, event);
              notices == old(notices) + (if applied then [Notice(Key(event), core.flags)] else [])
              && saved == if applied && hasStorage then Some(flagCache) else old(saved)
      ensures Valid()
    {
      ConsistentIsMirrored(State());
      DeltaKeepsValid(State(), event);
      if event.Unrecognized? { return; }
      if staged.Some? {
        StageDelta(event);
      } else {
        ApplyLive(event);
      }
    }

    method StageDelta(event: Event)
      requires staged.Some? && stagedRevisions.Some? && !event.Unrecognized?
      modifies this`staged, this`stagedRevisions
      ensures State() == ClientSpec.ApplyDelta(old(State()), event)
      ensures staged.Some? && stagedRevisions.Some?
    {
      var key := Key(event);
      staged := Some(if event.Upsert? then staged.value[key := event.flag] else staged.value - {key});
      if event.revision.Some? {
        stagedRevisions := Some(stagedRevisions.value[key := Mark(event.revision.value, event.Delete?)]);
      }
    }

    method ApplyLive(event: Event)
      requires core.flags == flagCache && staged.None? && !event.Unrecognized?
      modifies this`revisions, this`flagCache, this`notices, this`saved, core
      ensures State() == ClientSpec.ApplyDelta(old(State()), event)
      ensures var applied := Accepts(old(State()).live, event);
              notices == old(notices) + (if applied then [Notice(Key(event), core.flags)] else [])
              && saved == if applied && hasStorage then Some(flagCache) else old(saved)
    {
      if IsStaleEvent(Lookup(revisions, Key(event)), event.revision, event.Upsert?) { return; }
      SetLive(event);
      EmitChange(Key(event));
      PersistCache();
    }

    method SetLive(event: Event)
      requires core.flags == flagCache && !event.Unrecognized?
      modifies this`revisions, this`flagCache, core
      ensures State() == old(State()).(live := Live(SetFlag(old(flagCache), event), SetMark(old(revisions), event)),
                                       core := SetFlag(old(flagCache), event))
    {
      if event.revision.Some? {
        revisions := revisions[Key(event) := Mark(event.revision.value, event.Delete?)];
      }
      ChangeFlag(event);
    }

    method ChangeFlag(event: Event)
      requires core.flags == flagCache && !event.Unrecognized?
      modifies this`flagCache, core
      ensures State() == old(State()).(live := old(State()).live.(cache := SetFlag(old(flagCache), event)),
                                       core := SetFlag(old(flagCache), event))
    {
      if event.Upsert? {
        core.Upsert(event.flag);
        flagCache := flagCache[event.flag.key := event.flag];
      } else {
        core.Delete(Key(event));
        flagCache := flagCache - {Key(event)};
      }
    }

    /** The `connected` handler: open a replay and end the poll fallback. */
    method OnConnected()
      requires Valid() && sseOpen
      modifies this`staged, this`stagedRevisions, this`reconnectAttempts, this`syncGeneration, this`pollPromise,
        this`polling, this`pollTimer
      ensures State() == Next(old(State()), Connected)
      ensures Valid()
    {
      NextKeepsConsistent(State(), Connected);
      staged, stagedRevisions := Some(map[]), Some(map[]);
      reconnectAttempts := 0;
      StopPollFallback();
    }

    /** The `ready` handler: the replay goes live as a whole. */
    method OnReady() returns (ghost order: seq<string>)
      requires Valid() && sseOpen
      modifies this`staged, this`stagedRevisions, this`flagCache, this`revisions, this`notices, this`saved, core,
        this`hydrated, this`ready
      ensures State() == Next(old(State()), Ready)
      ensures old(staged).Some? ==> Lists(order, Changed(old(flagCache), flagCache))
      ensures notices == old(notices)
           + (if old(staged).Some? && old(ready) then Announce(order, core.flags) else [])
      ensures saved == if old(staged).Some? && hasStorage then Some(flagCache) else old(saved)
      ensures Valid()
    {
      ConsistentIsMirrored(State());
      NextKeepsConsistent(State(), Ready);
      if staged.None? { order := []; return; }
      order := GoLive();
    }

    method GoLive() returns (ghost order: seq<string>)
      requires core.flags == flagCache && Keyed(flagCache)
      requires staged.Some? && stagedRevisions.Some? && Keyed(staged.value)
      modifies this`staged, this`stagedRevisions, this`flagCache, this`revisions, this`notices, this`saved, core,
        this`hydrated, this`ready
      ensures State() == ClientSpec.OnReady(old(State()))
      ensures staged.None? && stagedRevisions.None? && Keyed(flagCache)
      ensures Lists(order, Changed(old(flagCache), flagCache))
      ensures notices == old(notices) + (if old(ready) then Announce(order, flagCache) else [])
      ensures saved == if hasStorage then Some(flagCache) else old(saved)
    {
      hide Lists, Changed, Target, Announce;
      var replay, marks := TakeStaged();
      var flags := Values(replay);
      order := ApplySnapshot(flags, marks);
      hydrated := true;
      PersistCache();
      ready := true;
    }

    method TakeStaged() returns (replay: map<string, Flag>, marks: map<string, Mark>)
      requires staged.Some? && stagedRevisions.Some?
      modifies this`staged, this`stagedRevisions
      ensures State() == old(State()).(staged := None) && staged.None? && stagedRevisions.None?
      ensures Some(Staging(replay, marks)) == old(State()).staged
    {
      replay, marks := staged.value, stagedRevisions.value;
      staged, stagedRevisions := None, None;
    }

    /** Closes the stream and schedules the next attempt; a replay that was under way is dropped. */
    method ScheduleReconnect(jitter: real) returns (delay: Option<real>)
      requires Valid() && (sseOpen || userClosed || reconnectTimer)
      modifies this`sseOpen, this`reconnectAttempts, this`staged, this`stagedRevisions, this`reconnectTimer,
        this`polling, this`pollTimer, this`pollPromise, this`requests, this`requestCount
      ensures State() == ClientSpec.ScheduleReconnect(old(State()))
      ensures delay == if old(userClosed || reconnectTimer) then None
                       else Some(BackoffDelay(reconnectDelayMs, maxReconnectDelayMs, old(reconnectAttempts), jitter))
      ensures Valid()
    {
      if sseOpen { NextKeepsConsistent(State(), StreamError); }
      if userClosed || reconnectTimer { return None; }
      delay := LoseStream(jitter);
    }

    method LoseStream(jitter: real) returns (delay: Option<real>)
      requires !userClosed && !reconnectTimer && (pollTimer <==> polling)
      modifies this`sseOpen, this`reconnectAttempts, this`staged, this`stagedRevisions, this`reconnectTimer,
        this`polling, this`pollTimer, this`pollPromise, this`requests, this`requestCount
      ensures State() == ClientSpec.ScheduleReconnect(old(State()))
      ensures staged.None? && stagedRevisions.None? && (pollTimer <==> polling)
      ensures delay
           == Some(BackoffDelay(reconnectDelayMs, maxReconnectDelayMs, old(reconnectAttempts), jitter))
    {
      delay := Some(BackoffDelay(reconnectDelayMs, maxReconnectDelayMs, reconnectAttempts, jitter));
      reconnectAttempts := reconnectAttempts + 1;
      CloseStream();
      if pollFallbackThreshold.Some? && reconnectAttempts >= pollFallbackThreshold.value {
        StartPollFallback();
      }
      reconnectTimer := true;
    }

    method ReconnectTimerFires()
      requires Valid() && reconnectTimer
      modifies this`reconnectTimer, this`sseOpen
      ensures State() == Next(old(State()), ReconnectTimer)
      ensures Valid()
    {
      NextKeepsConsistent(State(), ReconnectTimer);
      reconnectTimer := false;
      if !userClosed { sseOpen := true; }
    }

    method StartPollFallback()
      requires !userClosed && (pollTimer <==> polling)
      modifies this`polling, this`pollTimer, this`pollPromise, this`requests, this`requestCount
      ensures State() == old(State()).(polls := StartPolling(old(State()).polls))
      ensures pollTimer <==> polling
    {
      if polling { return; }
      polling := true;
      PollSnapshot();
      pollTimer := true;
    }

    method StopPollFallback()
      modifies this`syncGeneration, this`pollPromise, this`polling, this`pollTimer
      ensures State() == old(State()).(polls := StopPolling(old(State()).polls))
      ensures pollTimer <==> polling
    {
      syncGeneration := syncGeneration + 1;
      pollPromise := None;
      polling := false;
      pollTimer := false;
    }

    /** Shares a request that is under way, otherwise issues one tagged with the current generation. */
    method PollSnapshot()
      modifies this`pollPromise, this`requests, this`requestCount
      ensures State() == if userClosed then old(State())
                         else old(State()).(polls := IssuePoll(old(State()).polls))
    {
      if userClosed || pollPromise.Some? { return; }
      requests := requests[requestCount := syncGeneration];
      pollPromise := Some(requestCount);
      requestCount := requestCount + 1;
    }

    /** The continuation of one snapshot request; no response stands for a failed or malformed one. */
    method FetchSettles(id: nat, response: Option<seq<Flag>>) returns (ghost order: seq<string>)
      requires Valid() && id in requests
      modifies this`flagCache, this`revisions, this`notices, this`saved, core, this`hydrated, this`ready,
        this`requests, this`pollPromise
      ensures State() == Next(old(State()), FetchSettled(id, response))
      ensures response.Some? && DistinctKeys(response.value) && Usable(old(State()), id) ==>
                Lists(order, Changed(old(flagCache), flagCache))
                && notices == old(notices) + (if old(ready) then Announce(order, core.flags) else [])
      ensures response.None? || !Usable(old(State()), id) ==> notices == old(notices) && saved == old(saved)
      ensures Valid()
    {
      ConsistentIsMirrored(State());
      NextKeepsConsistent(State(), FetchSettled(id, response));
      order := Settle(id, response);
    }

    method Settle(id: nat, response: Option<seq<Flag>>) returns (ghost order: seq<string>)
      requires core.flags == flagCache && Keyed(flagCache) && id in requests
      modifies this`flagCache, this`revisions, this`notices, this`saved, core, this`hydrated, this`ready,
        this`requests, this`pollPromise
      ensures State() == SettleFetch(old(State()), id, response)
      ensures response.Some? && DistinctKeys(response.value) && Usable(old(State()), id) ==>
                Lists(order, Changed(old(flagCache), flagCache))
                && notices == old(notices) + (if old(ready) then Announce(order, core.flags) else [])
      ensures response.None? || !Usable(old(State()), id) ==> notices == old(notices) && saved == old(saved)
      ensures saved == old(saved) || (saved == Some(flagCache) && Keyed(flagCache))
    {
      order := UseResponse(id, response);
      ForgetRequest(id);
    }

    /** A response of an earlier generation, or after disconnect(), is ignored. */
    method UseResponse(id: nat, response: Option<seq<Flag>>) returns (ghost order: seq<string>)
      requires core.flags == flagCache && Keyed(flagCache) && id in requests
      modifies this`flagCache, this`revisions, this`notices, this`saved, core, this`hydrated, this`ready
      ensures State() == if response.Some? && Usable(old(State()), id)
                         then GoReady(Replace(old(State()), Target(response.value), map[])) else old(State())
      ensures response.Some? && DistinctKeys(response.value) && Usable(old(State()), id) ==>
                Lists(order, Changed(old(flagCache), flagCache))
                && notices == old(notices) + (if old(ready) then Announce(order, core.flags) else [])
      ensures response.None? || !Usable(old(State()), id) ==> notices == old(notices) && saved == old(saved)
      ensures saved == old(saved) || (saved == Some(flagCache) && Keyed(flagCache))
    {
      order := [];
      if response.Some? && requests[id] == syncGeneration && !userClosed {
        order := UseSnapshot(response.value);
      }
    }

    method UseSnapshot(flags: seq<Flag>) returns (ghost order: seq<string>)
      requires core.flags == flagCache && Keyed(flagCache)
      modifies this`flagCache, this`revisions, this`notices, this`saved, core, this`hydrated, this`ready
      ensures State() == GoReady(Replace(old(State()), Target(flags), map[]))
      ensures DistinctKeys(flags) ==> Lists(order, Changed(old(flagCache), flagCache))
      ensures notices == old(notices) + (if old(ready) then Announce(order, flagCache) else [])
      ensures saved == old(saved) || saved == Some(flagCache)
    {
      order := ApplySnapshot(flags, map[]);
      hydrated := true;
      ready := true;
    }

    method ForgetRequest(id: nat)
      modifies this`requests, this`pollPromise
      ensures State() == old(State()).(polls := SettlePoll(old(State()).polls, id))
    {
      requests := requests - {id};
      if pollPromise == Some(id) { pollPromise := None; }
    }

    /** The stored snapshot overlays cache and store; on any snapshot, also one this client did not write. */
    method HydrateFromCache(stored: Option<seq<Stored>>)
      modifies this`flagCache, core, this`hydrated
      ensures State() == Hydrate(old(State()), stored)
    {
      if stored.None? { return; }
      var entries := stored.value;
      for i := 0 to |entries|
        invariant flagCache == CacheOverlay(old(flagCache), entries[..i])
        invariant core.flags == CoreOverlay(old(core.flags), entries[..i])
        invariant hydrated == old(hydrated)
      {
        assert entries[..i + 1][..i] == entries[..i];
        flagCache := flagCache[entries[i].key := entries[i].flag];
        core.Upsert(entries[i].flag);
      }
      assert entries[..|entries|] == entries;
      if !ready { hydrated := true; }
    }

    method Connect(stored: Option<seq<Stored>>)
      requires Valid()
      modifies this`userClosed, this`connectPending, this`flagCache, core, this`hydrated, this`sseOpen
      ensures State() == Next(old(State()), ClientSpec.Connect(stored))
      ensures Trusted(ClientSpec.Connect(stored)) ==> Valid()
    {
      if Trusted(ClientSpec.Connect(stored)) { NextKeepsConsistent(State(), ClientSpec.Connect(stored)); }
      if ready || connectPending { return; }
      BeginConnect();
      HydrateFromCache(stored);
      OpenStream();
    }

    method BeginConnect()
      modifies this`userClosed, this`connectPending
      ensures State() == old(State()).(closed := false, pending := true)
    {
      userClosed := false;
      connectPending := true;
    }

    method OpenStream()
      modifies this`sseOpen
      ensures State() == old(State()).(streaming := true)
    {
      sseOpen := true;
    }

    method Disconnect()
      requires Valid()
      modifies this`userClosed, this`reconnectTimer, this`syncGeneration, this`pollPromise, this`polling,
        this`pollTimer, this`sseOpen, this`ready, this`staged, this`stagedRevisions, this`connectPending,
        this`reconnectAttempts
      ensures State() == Next(old(State()), ClientSpec.Disconnect)
      ensures Valid()
    {
      NextKeepsConsistent(State(), ClientSpec.Disconnect);
      Close();
    }

    method Close()
      modifies this`userClosed, this`reconnectTimer, this`syncGeneration, this`pollPromise, this`polling,
        this`pollTimer, this`sseOpen, this`ready, this`staged, this`stagedRevisions, this`connectPending,
        this`reconnectAttempts
      ensures State() == ClientSpec.Close(old(State()))
      ensures !pollTimer && !polling && staged.None? && stagedRevisions.None?
    {
      StopTimers();
      CloseStream();
      ResetReadiness();
    }

    method StopTimers()
      modifies this`userClosed, this`reconnectTimer, this`syncGeneration, this`pollPromise, this`polling,
        this`pollTimer
      ensures State() == old(State()).(closed := true, timer := false, polls := StopPolling(old(State()).polls))
      ensures !pollTimer && !polling
    {
      userClosed := true;
      reconnectTimer := false;
      StopPollFallback();
    }

    method CloseStream()
      modifies this`sseOpen, this`staged, this`stagedRevisions
      ensures State() == old(State()).(streaming := false, staged := None)
      ensures staged.None? && stagedRevisions.None?
    {
      sseOpen := false;
      staged, stagedRevisions := None, None;
    }

    /** A later connect() starts over. */
    method ResetReadiness()
      modifies this`ready, this`connectPending, this`reconnectAttempts
      ensures State() == old(State()).(ready := false, pending := false, attempts := 0)
    {
      ready := false;
      connectPending := false;
      reconnectAttempts := 0;
    }
  }

  /** Keys of `after` that are new or carry another flag than in `before`. */
  function Differing(before: map<string, Flag>, after: map<string, Flag>): set<string> {
    set k | k in after && Lookup(before, k) != Some(after[k])
  }

  function Restrict(m: map<string, Flag>, keys: set<string>): map<string, Flag> {
    map k | k in m && k in keys :: m[k]
  }

  lemma OverlayStep(before: map<string, Flag>, target: map<string, Flag>, flag: Flag)
    ensures (before + target)[flag.key := flag] == before + target[flag.key := flag]
    ensures Lookup(before + target, flag.key) == Some(flag) ==>
              before + target[flag.key := flag] == before + target
  {
    var m := before + target;
    if Lookup(m, flag.key) == Some(flag) {
      assert m[flag.key := flag] == m;
    }
  }

  lemma OnlyTarget(before: map<string, Flag>, target: map<string, Flag>)
    ensures Restrict(before + target, target.Keys) == target
  {
  }

  lemma TargetStep(flags: seq<Flag>, i: nat)
    requires i < |flags|
    ensures Target(flags[..i + 1]) == Target(flags[..i])[flags[i].key := flags[i]]
    ensures DistinctKeys(flags) ==> flags[i].key !in Target(flags[..i])
  {
    assert flags[..i + 1][..i] == flags[..i];
    TargetLookup(flags[..i], flags[i].key);
  }

  lemma ListsStep(before: map<string, Flag>, target: map<string, Flag>, flag: Flag, changed: seq<string>)
    requires flag.key !in target && Lists(changed, Differing(before, target))
    ensures var next := Differing(before, target[flag.key := flag]);
            if Lookup(before, flag.key) == Some(flag) then Lists(changed, next) else Lists(changed + [flag.key], next)
  {
    var next := Differing(before, target[flag.key := flag]);
    if Lookup(before, flag.key) == Some(flag) {
      assert next == Differing(before, target);
    } else {
      assert next == Differing(before, target) + {flag.key};
    }
  }

  lemma JoinLists(upserted: seq<string>, removed: seq<string>, before: map<string, Flag>, target: map<string, Flag>)
    requires Lists(upserted, Differing(before, target))
    requires Lists(removed, (before + target).Keys - target.Keys)
    ensures Lists(upserted + removed, Changed(before, target))
  {
    var both := upserted + removed;
    forall i, j | 0 <= i < j < |both| ensures both[i] != both[j] {
      if i < |upserted| <= j {
        assert both[i] in upserted && both[j] in removed;
      }
    }
    assert forall k :: k in both <==> k in upserted || k in removed;
  }

  lemma DeltaKeepsValid(c: Client, e: Event)
    requires Consistent(c)
    ensures Consistent(ClientSpec.ApplyDelta(c, e))
  {
    NextKeepsMirrored(c.(streaming := true), Update(e));
    assert ClientSpec.ApplyDelta(c, e).polls == c.polls;
  }

  /** The values of a map, in some order. */
  method Values(m: map<string, Flag>) returns (flags: seq<Flag>)
    requires Keyed(m)
    ensures DistinctKeys(flags) && Target(flags) == m
  {
    flags := [];
    var keys := m.Keys;
    while keys != {}
      invariant keys <= m.Keys
      invariant DistinctKeys(flags)
      invariant Target(flags) == map k | k in m && k !in keys :: m[k]
    {
      var key :| key in keys;
      OneMoreValue(m, keys, flags, key);
      flags, keys := flags + [m[key]], keys - {key};
    }
  }

  lemma OneMoreValue(m: map<string, Flag>, keys: set<string>, flags: seq<Flag>, key: string)
    requires Keyed(m) && key in keys && keys <= m.Keys
    requires DistinctKeys(flags) && Target(flags) == map k | k in m && k !in keys :: m[k]
    ensures DistinctKeys(flags + [m[key]])
    ensures Target(flags + [m[key]]) == map k | k in m && k !in keys - {key} :: m[k]
  {
    TargetLookup(flags, key);
    assert (flags + [m[key]])[..|flags|] == flags;
  }
}
