/** The edge snapshot cache as a state machine: what every call, response and continuation does to it. */
module EdgeSpec {
  import opened Options
  import opened Flags

  /** An element of a snapshot response; the core ignores what is not a flag. */
  datatype Entry = Entry(json: string, flag: Option<Flag>)

  /** How a snapshot request ends. */
  datatype Reply =
    | NetworkError
    | HttpError(status: nat)
    | NotJson
    | NotArray
    | Snapshot(flags: seq<Entry>)

  /** How the promise of a refresh settles. */
  datatype Verdict = Resolved(count: nat, refreshed: bool) | Rejected

  /** Why a call of ensureFresh returned: at once within the TTL, at once although stale, or after a refresh. */
  datatype Reason = Fresh(age: real) | Stale(age: real) | Waited(refresh: nat)

  /** A call of ensureFresh. `swallow` says that a rejection of the awaited refresh is ignored. */
  datatype Call = Waiting(promise: nat, swallow: bool) | Returned(reason: Reason) | Threw(refresh: nat)

  datatype Edge = Edge(
    ttl: real, swr: real,         // the freshness window and the stale window beyond it, in milliseconds
    loaded: bool, loadedAt: real, count: nat, snapshot: seq<Entry>,
    core: map<string, Flag>,
    refreshing: Option<nat>,      // the promise behind _refreshing
    open: set<nat>,               // requests without a reply yet
    finishing: set<nat>,          // refreshes that ended but whose `finally` has not run
    issued: nat,
    verdicts: map<nat, Verdict>,
    calls: map<nat, Call>)

  datatype Input =
    | RefreshCalled
    | EnsureFreshCalled(call: nat, now: real)
    | Replied(promise: nat, reply: Reply, now: real)
    | Cleared(promise: nat)       // the `finally` callback
    | Resumed(call: nat)          // ensureFresh continues after its await

  function Start(ttl: real, swr: real, core: map<string, Flag>): Edge {
    Edge(ttl, swr, false, 0.0, 0, [], core, None, {}, {}, 0, map[], map[])
  }

  predicate Enabled(e: Edge, input: Input) {
    match input
    case RefreshCalled => true
    case EnsureFreshCalled(call, _) => call !in e.calls
    case Replied(p, _, _) => p in e.open
    case Cleared(p) => p in e.finishing
    case Resumed(call) =>
      call in e.calls && e.calls[call].Waiting?
      && e.calls[call].promise in e.verdicts && e.calls[call].promise !in e.finishing
  }

  /** The flags of a snapshot, later entries winning. */
  function Target(entries: seq<Entry>): map<string, Flag> {
    if |entries| == 0 then map[]
    else
      var init, last := Target(entries[..|entries| - 1]), entries[|entries| - 1].flag;
      if last.Some? then init[last.value.key := last.value] else init
  }

  function Refresh(e: Edge): Edge {
    if e.refreshing.Some? then e
    else e.(refreshing := Some(e.issued), open := e.open + {e.issued}, issued := e.issued + 1)
  }

  function Judge(e: Edge, reply: Reply): Verdict {
    match reply
    case Snapshot(flags) => Resolved(|flags|, true)
    case NotJson => Rejected
    case _ => if e.loaded then Resolved(e.count, false) else Rejected
  }

  function Load(e: Edge, reply: Reply, now: real): Edge {
    if reply.Snapshot? then
      e.(loaded := true, loadedAt := now, count := |reply.flags|, snapshot := reply.flags, core := Target(reply.flags))
    else e
  }

  function Await(e: Edge, call: nat, swallow: bool): Edge {
    var f := Refresh(e);
    f.(calls := f.calls[call := Waiting(f.refreshing.GetOr(0), swallow)])
  }

  function EnsureFresh(e: Edge, call: nat, now: real): Edge {
    if !e.loaded then Await(e, call, false)
    else
      var age := now - e.loadedAt;
      if age <= e.ttl then e.(calls := e.calls[call := Returned(Fresh(age))])
      else if e.swr > 0.0 && age <= e.ttl + e.swr then
        var f := Refresh(e);
        f.(calls := f.calls[call := Returned(Stale(age))])
      else Await(e, call, true)
  }

  function Next(e: Edge, input: Input): Edge
    requires Enabled(e, input)
  {
    match input
    case RefreshCalled => Refresh(e)
    case EnsureFreshCalled(call, now) => EnsureFresh(e, call, now)
    case Replied(p, reply, now) =>
      Load(e, reply, now)
        .(open := e.open - {p}, finishing := e.finishing + {p}, verdicts := e.verdicts[p := Judge(e, reply)])
    case Cleared(p) => e.(refreshing := None, finishing := e.finishing - {p})
    case Resumed(call) =>
      var w := e.calls[call];
      var threw := e.verdicts[w.promise].Rejected? && !w.swallow;
      e.(calls := e.calls[call := if threw then Threw(w.promise) else Returned(Waited(w.promise))])
  }

  // ---- The invariant of every reachable cache ----

  /** Whatever is under way is the one shared refresh. */
  predicate SingleFlight(e: Edge) {
    match e.refreshing
    case None => e.open == {} && e.finishing == {}
    case Some(p) => p < e.issued && ((e.open == {p} && e.finishing == {}) || (e.open == {} && e.finishing == {p}))
  }

  /** A promise has settled unless its request is open. */
  ghost predicate Settles(e: Edge) {
    && (forall p :: p in e.verdicts <==> 0 <= p < e.issued && p !in e.open)
    && (forall p :: p in e.verdicts && e.verdicts[p].Resolved? ==> e.loaded)
  }

  predicate CallOk(e: Edge, c: Call) {
    match c
    case Waiting(p, swallow) => p < e.issued && (swallow ==> e.loaded)
    case Threw(p) => p in e.verdicts && e.verdicts[p].Rejected?
    case Returned(reason) =>
      e.loaded
      && match reason
         case Fresh(age) => age <= e.ttl
         case Stale(age) => e.ttl < age <= e.ttl + e.swr
         case Waited(p) => p in e.verdicts
  }

  ghost predicate Consistent(e: Edge) {
    && e.ttl >= 0.0 && e.swr >= 0.0 && SingleFlight(e) && Settles(e)
    && (e.loaded ==> e.core == Target(e.snapshot) && e.count == |e.snapshot|)
    && (forall c :: c in e.calls ==> CallOk(e, e.calls[c]))
  }

  lemma NextKeepsConsistent(e: Edge, input: Input)
    requires Consistent(e) && Enabled(e, input)
    ensures Consistent(Next(e, input))
  {
    NextKeepsFlight(e, input);
    NextKeepsCalls(e, input);
  }

  lemma NextKeepsFlight(e: Edge, input: Input)
    requires SingleFlight(e) && Settles(e) && Enabled(e, input)
    ensures SingleFlight(Next(e, input)) && Settles(Next(e, input))
  {
  }

  lemma NextKeepsCalls(e: Edge, input: Input)
    requires Consistent(e) && Enabled(e, input)
    ensures var f := Next(e, input); forall c :: c in f.calls ==> CallOk(f, f.calls[c])
  {
    var f := Next(e, input);
    forall c | c in f.calls ensures CallOk(f, f.calls[c]) {
      if c in e.calls { OldCallStaysOk(e, input, c); } else { NewCallIsOk(e, input, c); }
    }
  }

  lemma OldCallStaysOk(e: Edge, input: Input, call: nat)
    requires Consistent(e) && Enabled(e, input) && call in e.calls
    ensures call in Next(e, input).calls && CallOk(Next(e, input), Next(e, input).calls[call])
  {
    hide SingleFlight, Target;
    assert CallOk(e, e.calls[call]);
  }

  lemma NewCallIsOk(e: Edge, input: Input, call: nat)
    requires Consistent(e) && Enabled(e, input) && call !in e.calls && call in Next(e, input).calls
    ensures CallOk(Next(e, input), Next(e, input).calls[call])
  {
    hide Settles, Target;
  }

  // ---- Whole runs ----

  predicate Runs(e: Edge, inputs: seq<Input>)
    decreases |inputs|, 0
  {
    |inputs| > 0 ==>
      Runs(e, inputs[..|inputs| - 1])
      && Enabled(Run(e, inputs[..|inputs| - 1]), inputs[|inputs| - 1])
  }

  function Run(e: Edge, inputs: seq<Input>): Edge
    requires Runs(e, inputs)
    decreases |inputs|, 1
  {
    if |inputs| == 0 then e
    else Next(Run(e, inputs[..|inputs| - 1]), inputs[|inputs| - 1])
  }

  lemma {:induction false} RunKeepsConsistent(e: Edge, inputs: seq<Input>)
    requires Consistent(e) && Runs(e, inputs)
    ensures Consistent(Run(e, inputs))
  {
    if |inputs| > 0 {
      RunKeepsConsistent(e, inputs[..|inputs| - 1]);
      NextKeepsConsistent(Run(e, inputs[..|inputs| - 1]), inputs[|inputs| - 1]);
    }
  }

  /** The last good snapshot of a history, and when it came. */
  function LastGood(inputs: seq<Input>): Option<(seq<Entry>, real)> {
    if |inputs| == 0 then None
    else
      match inputs[|inputs| - 1]
      case Replied(_, Snapshot(flags), now) => Some((flags, now))
      case _ => LastGood(inputs[..|inputs| - 1])
  }

  /** However calls and failures interleave, at most one request is open, and the core, the snapshot, the count and
      the load time are those of the last good reply; before the first one, nothing was touched. */
  lemma {:induction false} ServesLastGood(ttl: real, swr: real, core: map<string, Flag>, inputs: seq<Input>)
    requires ttl >= 0.0 && swr >= 0.0 && Runs(Start(ttl, swr, core), inputs)
    ensures var e := Run(Start(ttl, swr, core), inputs);
            && |e.open| <= 1
            && e.ttl == ttl && e.swr == swr
            && match LastGood(inputs)
               case None => !e.loaded && e.core == core && e.snapshot == [] && e.count == 0 && e.loadedAt == 0.0
               case Some((flags, at)) =>
                 e.loaded && e.core == Target(flags) && e.snapshot == flags && e.count == |flags| && e.loadedAt == at
  {
    RunKeepsConsistent(Start(ttl, swr, core), inputs);
    if |inputs| > 0 {
      var init := inputs[..|inputs| - 1];
      ServesLastGood(ttl, swr, core, init);
      NextServes(Run(Start(ttl, swr, core), init), inputs[|inputs| - 1]);
    }
  }

  /** Only a good reply changes what is served. */
  lemma NextServes(e: Edge, input: Input)
    requires Enabled(e, input)
    ensures var f := Next(e, input);
            && f.ttl == e.ttl && f.swr == e.swr
            && if input.Replied? && input.reply.Snapshot?
               then f == Load(e, input.reply, input.now)
                         .(open := f.open, finishing := f.finishing, verdicts := f.verdicts)
               else f.loaded == e.loaded && f.core == e.core && f.snapshot == e.snapshot && f.count == e.count
                    && f.loadedAt == e.loadedAt
  {
  }

  /** What became of a call that was made at a time, with the last good reply before it. The age is the time since that
      reply. Within the freshness window the call returns at once, in the stale window too, and otherwise it waits for
      a refresh: nothing was loaded, or it is beyond both windows. Only in the first case can it throw. */
  predicate Explained(e: Edge, call: nat, now: real, before: Option<(seq<Entry>, real)>)
    requires call in e.calls
  {
    match e.calls[call]
    case Returned(Fresh(age)) => before.Some? && age == now - before.value.1 && age <= e.ttl
    case Returned(Stale(age)) => before.Some? && age == now - before.value.1 && e.ttl < age <= e.ttl + e.swr
    case Returned(Waited(p)) => p in e.verdicts && (before.Some? ==> now - before.value.1 > e.ttl + e.swr)
    case Waiting(p, swallow) =>
      p < e.issued && (swallow <==> before.Some?) && (before.Some? ==> now - before.value.1 > e.ttl + e.swr)
    case Threw(p) => before.None? && p in e.verdicts && e.verdicts[p].Rejected?
  }

  predicate MadeAt(inputs: seq<Input>, i: nat, call: nat)
    requires i < |inputs|
  {
    inputs[i].EnsureFreshCalled? && inputs[i].call == call
  }

  /** In every run every call is explained by the moment when it was made, and one that returned found a snapshot
      loaded. */
  lemma {:induction false} ReturnsLoaded(ttl: real, swr: real, core: map<string, Flag>, inputs: seq<Input>, call: nat)
    returns (i: nat)
    requires ttl >= 0.0 && swr >= 0.0 && Runs(Start(ttl, swr, core), inputs)
    requires call in Run(Start(ttl, swr, core), inputs).calls
    ensures i < |inputs| && MadeAt(inputs, i, call)
    ensures var e := Run(Start(ttl, swr, core), inputs);
            && Explained(e, call, inputs[i].now, LastGood(inputs[..i]))
            && (e.calls[call].Returned? ==> LastGood(inputs).Some?)
  {
    var start, n := Start(ttl, swr, core), |inputs| - 1;
    var init, e := inputs[..n], Run(start, inputs[..n]);
    RunKeepsConsistent(start, init);
    ServesLastGood(ttl, swr, core, init);
    if call in e.calls {
      i := ReturnsLoaded(ttl, swr, core, init, call);
      assert inputs[..i] == init[..i];
      StaysExplained(e, inputs[n], call, inputs[i].now, LastGood(inputs[..i]));
    } else {
      i := n;
      NewCallIsExplained(e, inputs[n], call);
    }
    RunKeepsConsistent(start, inputs);
    ServesLastGood(ttl, swr, core, inputs);
    assert CallOk(Run(start, inputs), Run(start, inputs).calls[call]);
  }

  lemma StaysExplained(e: Edge, input: Input, call: nat, now: real, before: Option<(seq<Entry>, real)>)
    requires Consistent(e) && Enabled(e, input) && call in e.calls && Explained(e, call, now, before)
    ensures call in Next(e, input).calls && Explained(Next(e, input), call, now, before)
  {
    assert CallOk(e, e.calls[call]);
  }

  lemma NewCallIsExplained(e: Edge, input: Input, call: nat)
    requires Consistent(e) && Enabled(e, input) && call !in e.calls && call in Next(e, input).calls
    ensures input.EnsureFreshCalled? && input.call == call
    ensures Explained(Next(e, input), call, input.now, if e.loaded then Some((e.snapshot, e.loadedAt)) else None)
  {
  }

  /** A stale answer always comes with a refresh under way. */
  lemma StaleAnswerRefreshes(e: Edge, call: nat, now: real)
    requires Consistent(e) && call !in e.calls
    ensures var f := EnsureFresh(e, call, now);
            && (f.calls[call].Returned? && f.calls[call].reason.Stale? ==> f.refreshing.Some?)
            && (f.calls[call].Returned? && f.calls[call].reason.Fresh? ==> f == e.(calls := f.calls))
            && (f.calls[call].Waiting? ==> f.refreshing == Some(f.calls[call].promise))
  {
  }

  /** When refresh() rejects: always on a body that is not JSON, even with a snapshot loaded; on any other failure
      only if nothing was ever loaded. No failure changes what is served. */
  lemma RejectsIff(e: Edge, promise: nat, reply: Reply, now: real)
    requires Consistent(e) && promise in e.open
    ensures var f := Next(e, Replied(promise, reply, now));
            && (f.verdicts[promise].Rejected? <==> reply.NotJson? || (!e.loaded && !reply.Snapshot?))
            && (!reply.Snapshot? ==>
                  f.core == e.core && f.snapshot == e.snapshot && f.count == e.count && f.loadedAt == e.loadedAt
                  && f.loaded == e.loaded && (f.verdicts[promise].Resolved? ==> !f.verdicts[promise].refreshed))
  {
  }

  /** A rejection with a snapshot loaded: the second refresh gets a body that is not JSON. */
  lemma RejectsWhileLoaded(ttl: real, swr: real, core: map<string, Flag>, t: real, u: real)
    returns (inputs: seq<Input>)
    ensures inputs == [RefreshCalled, Replied(0, Snapshot([]), t), Cleared(0), RefreshCalled, Replied(1, NotJson, u)]
    ensures Runs(Start(ttl, swr, core), inputs)
    ensures var e := Run(Start(ttl, swr, core), inputs);
            e.loaded && e.loadedAt == t && 1 in e.verdicts && e.verdicts[1].Rejected?
  {
    hide Runs, Run;
    var start := Start(ttl, swr, core);
    NothingYet(start);
    inputs := Extended(start, [], RefreshCalled);
    inputs := Extended(start, inputs, Replied(0, Snapshot([]), t));
    inputs := Extended(start, inputs, Cleared(0));
    inputs := Extended(start, inputs, RefreshCalled);
    inputs := Extended(start, inputs, Replied(1, NotJson, u));
  }

  lemma NothingYet(e: Edge)
    ensures Runs(e, []) && Run(e, []) == e
  {
  }

  lemma Extended(e: Edge, inputs: seq<Input>, input: Input) returns (longer: seq<Input>)
    requires Runs(e, inputs) && Enabled(Run(e, inputs), input)
    ensures longer == inputs + [input] && Runs(e, longer) && Run(e, longer) == Next(Run(e, inputs), input)
  {
    hide Next, Enabled;
    longer := inputs + [input];
    assert longer[..|longer| - 1] == inputs;
  }
}

/** The edge cache itself. */
module EdgeCache {
  import opened Options
  import opened Flags
  import opened Stores
  import opened EdgeSpec

  function NotNegative(x: real): real {
    if x <= 0.0 then 0.0 else x
  }

  class CheckgateEdge {
    const ttlMs: real
    const swrMs: real
    const core: FlagStore
    var loaded: bool
    var loadedAt: real
    var flagCount: nat
    var snapshot: seq<Entry>
    var refreshing: Option<nat>
    // What the runtime holds for the cache: requests, promises and suspended calls.
    var open: set<nat>
    var finishing: set<nat>
    var issued: nat
    var verdicts: map<nat, Verdict>
    var calls: map<nat, Call>

    ghost function State(): Edge
      reads this, core
    {
      Edge(ttlMs, swrMs, loaded, loadedAt, flagCount, snapshot, core.flags, refreshing, open, finishing, issued,
           verdicts, calls)
    }

    ghost predicate Valid()
      reads this, core
    {
      Consistent(State())
    }

    constructor (ttlSeconds: real, staleWhileRevalidateSeconds: real, c: FlagStore)
      ensures Valid() && core == c
      ensures State() == Start(ttlMs, swrMs, c.flags)
      ensures ttlMs == (if ttlSeconds <= 0.0 then 0.0 else ttlSeconds * 1000.0)
      ensures swrMs == (if staleWhileRevalidateSeconds <= 0.0 then 0.0 else staleWhileRevalidateSeconds * 1000.0)
    {
      core := c;
      ttlMs := NotNegative(ttlSeconds) * 1000.0;
      swrMs := NotNegative(staleWhileRevalidateSeconds) * 1000.0;
      loaded, loadedAt, flagCount, snapshot, refreshing := false, 0.0, 0, [], None;
      open, finishing, issued, verdicts, calls := {}, {}, 0, map[], map[];
    }

    /** Concurrent calls share one promise. */
    method Refresh() returns (promise: nat)
      requires Valid()
      modifies this`refreshing, this`open, this`issued
      ensures State() == Next(old(State()), RefreshCalled) && refreshing == Some(promise)
      ensures Valid()
    {
      NextKeepsConsistent(State(), RefreshCalled);
      if refreshing.Some? { return refreshing.value; }
      promise := issued;
      open, issued := open + {issued}, issued + 1;
      refreshing := Some(promise);
    }

    /** The rest of _doRefresh once the request has ended. */
    method DoRefresh(promise: nat, reply: Reply, now: real) returns (verdict: Verdict)
      requires Valid() && promise in open
      modifies this`loaded, this`loadedAt, this`flagCount, this`snapshot, core, this`open, this`finishing,
        this`verdicts
      ensures State() == Next(old(State()), Replied(promise, reply, now)) && verdicts[promise] == verdict
      ensures Valid()
    {
      NextKeepsConsistent(State(), Replied(promise, reply, now));
      match reply {
        case Snapshot(flags) =>
          LoadSnapshot(flags, now);
          verdict := Resolved(|flags|, true);
        case NotJson => verdict := Rejected;
        case _ => verdict := if loaded then Resolved(flagCount, false) else Rejected;
      }
      open, finishing, verdicts := open - {promise}, finishing + {promise}, verdicts[promise := verdict];
    }

    method LoadSnapshot(flags: seq<Entry>, now: real)
      modifies this`loaded, this`loadedAt, this`flagCount, this`snapshot, core
      ensures State() == Load(old(State()), Snapshot(flags), now)
    {
      Reload(flags);
      snapshot, flagCount, loadedAt, loaded := flags, |flags|, now, true;
    }

    method Reload(flags: seq<Entry>)
      modifies core
      ensures core.flags == Target(flags)
    {
      core.Clear();
      for i := 0 to |flags|
        invariant core.flags == Target(flags[..i])
      {
        assert flags[..i + 1][..i] == flags[..i];
        if flags[i].flag.Some? { core.Upsert(flags[i].flag.value); }
      }
      assert flags[..|flags|] == flags;
    }

    method Finally(promise: nat)
      requires Valid() && promise in finishing
      modifies this`refreshing, this`finishing
      ensures State() == Next(old(State()), Cleared(promise))
      ensures Valid()
    {
      NextKeepsConsistent(State(), Cleared(promise));
      finishing := finishing - {promise};
      refreshing := None;
    }

    /** ensureFresh up to its return or its await. */
    method EnsureFresh(call: nat, now: real)
      requires Valid() && call !in calls
      modifies this`refreshing, this`open, this`issued, this`calls
      ensures State() == Next(old(State()), EnsureFreshCalled(call, now))
      ensures Valid()
    {
      NextKeepsConsistent(State(), EnsureFreshCalled(call, now));
      if !loaded {
        var p := Refresh();
        calls := calls[call := Waiting(p, false)];
        return;
      }
      var age := now - loadedAt;
      if age <= ttlMs {
        calls := calls[call := Returned(Fresh(age))];
        return;
      }
      var p := Refresh();
      if swrMs > 0.0 && age <= ttlMs + swrMs {
        calls := calls[call := Returned(Stale(age))];
        return;
      }
      calls := calls[call := Waiting(p, true)];
    }

    /** ensureFresh after its await. */
    method Resume(call: nat)
      requires Valid() && call in calls && calls[call].Waiting?
      requires calls[call].promise in verdicts && calls[call].promise !in finishing
      modifies this`calls
      ensures State() == Next(old(State()), Resumed(call))
      ensures calls[call].Threw? <==> old(calls)[call].swallow == false && verdicts[old(calls)[call].promise].Rejected?
      ensures Valid()
    {
      NextKeepsConsistent(State(), Resumed(call));
      var w := calls[call];
      var threw := verdicts[w.promise].Rejected? && !w.swallow;
      calls := calls[call := if threw then Threw(w.promise) else Returned(Waited(w.promise))];
    }
  }
}
