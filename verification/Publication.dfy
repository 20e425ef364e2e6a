/** The database side of replication: flag rows, revisions, tombstones, segments, and the change events that
    committed writes owe their subscribers. */
module Publication {
  import opened Options
  import opened Flags
  import opened Segments
  import opened Revisions

  datatype Slot = Slot(env: string, key: string)

  /** `since` is bookkeeping of the model: the revision of the last write that changed what clients are sent.
      Archiving a flag moves `revision` alone. */
  datatype Row = Row(flag: Flag, revision: nat, since: nat)

  datatype Database = Database(
    rows: map<Slot, Row>,
    tombs: map<Slot, nat>,
    segments: map<string, SegmentMap>,
    issued: map<Slot, nat>)   // the least revision a flag has not had yet

  /** An event that is owed but not yet published. A flag write expands the flag against the segments of some moment
      between its commit and its publication; everything else is fixed at commit. */
  datatype Job =
    | Patched(env: string, flag: Flag, revision: nat)
    | Prepared(env: string, event: Event)

  datatype Write =
    | Put(env: string, flag: Flag, revision: nat)   // create, patch, promote, scheduled or approved change
    | Remove(slot: Slot)
    | Archive(slot: Slot, revision: nat)
    | PutSegment(env: string, name: string, rules: Option<seq<TargetingRule>>, revisions: map<Slot, nat>)
    | Prune(slot: Slot)

  function SegmentsOf(db: Database, env: string): SegmentMap {
    if env in db.segments then db.segments[env] else map[]
  }

  /** What clients should serve for a slot. */
  function Content(db: Database, slot: Slot): Option<Flag> {
    if slot in db.rows then Some(Expand(db.rows[slot].flag, SegmentsOf(db, slot.env))) else None
  }

  function JobEvent(db: Database, j: Job): Event {
    match j
    case Patched(env, flag, revision) => Upsert(Expand(flag, SegmentsOf(db, env)), Some(revision))
    case Prepared(_, event) => event
  }

  function NextFor(db: Database, s: Slot): nat {
    if s in db.issued then db.issued[s] else 0
  }

  predicate DbOk(db: Database) {
    && (forall s :: s in db.rows ==>
          db.rows[s].flag.key == s.key && db.rows[s].since <= db.rows[s].revision < NextFor(db, s))
    && (forall s :: s in db.tombs ==> db.tombs[s] < NextFor(db, s))
    && (forall s :: s in db.rows && s in db.tombs ==> db.tombs[s] < db.rows[s].since)
  }

  predicate Rewritten(db: Database, s: Slot, env: string, name: string) {
    s in db.rows && s.env == env && References(db.rows[s].flag, name)
  }

  function ChangedSegments(segments: SegmentMap, name: string, rules: Option<seq<TargetingRule>>): SegmentMap {
    if rules.Some? then segments[name := rules.value] else segments - {name}
  }

  /** Writes of one flag receive increasing revisions in the order they commit; those of different flags need not.
      A segment write draws one for every flag that references it. */
  predicate CanWrite(db: Database, w: Write) {
    match w
    case Put(env, flag, revision) => revision >= NextFor(db, Slot(env, flag.key))
    case Remove(slot) => slot in db.rows
    case Archive(slot, revision) => slot in db.rows && revision >= NextFor(db, slot)
    case PutSegment(env, name, _, revisions) =>
      && (forall s :: s in db.rows ==> (s in revisions <==> Rewritten(db, s, env, name)))
      && (forall s :: s in revisions ==> s in db.rows && NextFor(db, s) <= revisions[s])
    case Prune(slot) => slot in db.tombs
  }

  function Larger(a: nat, b: nat): nat {
    if a >= b then a else b
  }

  function Apply(db: Database, w: Write): Database
    requires CanWrite(db, w)
  {
    match w
    case Put(env, flag, revision) =>
      db.(rows := db.rows[Slot(env, flag.key) := Row(flag, revision, revision)],
          issued := db.issued[Slot(env, flag.key) := revision + 1])
    case Remove(slot) =>
      var before := if slot in db.tombs then db.tombs[slot] else 0;
      db.(rows := db.rows - {slot}, tombs := db.tombs[slot := Larger(before, db.rows[slot].revision)])
    case Archive(slot, revision) =>
      db.(rows := db.rows[slot := db.rows[slot].(revision := revision)], issued := db.issued[slot := revision + 1])
    case PutSegment(env, name, rules, revisions) =>
      db.(rows := (map s | s in db.rows ::
                     if s in revisions then Row(db.rows[s].flag, revisions[s], revisions[s]) else db.rows[s]),
          segments := db.segments[env := ChangedSegments(SegmentsOf(db, env), name, rules)],
          issued := db.issued + (map s | s in revisions :: revisions[s] + 1))
    case Prune(slot) => db.(tombs := db.tombs - {slot})
  }

  /** The slots whose clients must hear about the write. */
  predicate Touches(db: Database, w: Write, s: Slot)
    requires CanWrite(db, w)
  {
    match w
    case Put(env, flag, _) => s == Slot(env, flag.key)
    case Remove(slot) => s == slot
    case Archive(_, _) => false
    case PutSegment(_, _, _, revisions) => s in revisions
    case Prune(_) => false
  }

  /** The one event owed for a touched slot. */
  function JobFor(db: Database, w: Write, s: Slot): Job
    requires CanWrite(db, w) && Touches(db, w, s)
  {
    match w
    case Put(env, flag, revision) => Patched(env, flag, revision)
    case Remove(slot) => Prepared(slot.env, Delete(slot.key, Some(db.rows[slot].revision)))
    case PutSegment(env, name, rules, revisions) =>
      Prepared(s.env, Upsert(Expand(db.rows[s].flag, ChangedSegments(SegmentsOf(db, env), name, rules)),
                             Some(revisions[s])))
  }

  ghost function Published(db: Database, w: Write): iset<Job>
    requires CanWrite(db, w)
  {
    iset s | Touches(db, w, s) :: JobFor(db, w, s)
  }

  // ---- What may be said about a slot while it is being replicated ----

  /** A mark and flag that may be held or under way for a slot: never newer than the database, and right
      once it is as new as the last change of the content. */
  predicate SoundEntry(db: Database, s: Slot, m: Mark, flag: Option<Flag>) {
    && 0 <= m.revision < NextFor(db, s)
    && if s in db.rows then
         if m.deleted then m.revision < db.rows[s].since
         else m.revision <= db.rows[s].revision && (m.revision >= db.rows[s].since ==> flag == Content(db, s))
       else if s in db.tombs then m.revision <= db.tombs[s]
       else m.deleted
  }

  predicate SoundEvent(db: Database, env: string, e: Event) {
    && Revisioned(e)
    && (Slot(env, Key(e)) in db.rows || Slot(env, Key(e)) in db.tombs)
    && SoundEntry(db, Slot(env, Key(e)), MarkOf(e), if e.Upsert? then Some(e.flag) else None)
  }

  /** A flag write that is still due for publication carries the stored flag unless it was overtaken. */
  predicate SoundJob(db: Database, j: Job) {
    && SoundEvent(db, j.env, JobEvent(db, j))
    && (j.Patched? && Slot(j.env, j.flag.key) in db.rows && j.revision >= db.rows[Slot(j.env, j.flag.key)].since ==>
          j.flag == db.rows[Slot(j.env, j.flag.key)].flag)
  }

  /** The mark that settles a slot. */
  predicate Decisive(db: Database, s: Slot, m: Mark) {
    if s in db.rows then !m.deleted && m.revision >= db.rows[s].since
    else s in db.tombs && m.deleted && m.revision == db.tombs[s]
  }

  /** What a client holds for a key is sound. */
  predicate HeldOk(db: Database, s: Slot, live: Live) {
    && (s.key in live.cache <==> s.key in live.marks && !live.marks[s.key].deleted)
    && (s.key in live.marks ==> SoundEntry(db, s, live.marks[s.key], Lookup(live.cache, s.key)))
  }

  /** The settling mark is held or still coming. */
  ghost predicate Decided(db: Database, s: Slot, live: Live, coming: iset<Event>) {
    || (s.key in live.marks && Decisive(db, s, live.marks[s.key]))
    || exists e :: e in coming && Concerns(e, s.key) && Decisive(db, s, MarkOf(e))
  }

  ghost predicate SlotOk(db: Database, s: Slot, live: Live, coming: iset<Event>) {
    && HeldOk(db, s, live)
    && (s in db.rows || s in db.tombs ==> Decided(db, s, live, coming))
  }

  // ---- Writes keep what was said ----

  lemma WriteKeepsDbOk(db: Database, w: Write)
    requires DbOk(db) && CanWrite(db, w)
    ensures DbOk(Apply(db, w))
  {
    var after := Apply(db, w);
    forall s | s in after.rows
      ensures after.rows[s].flag.key == s.key && after.rows[s].since <= after.rows[s].revision < NextFor(after, s)
    {
      RevisionsGrow(db, w, s);
    }
    forall s | s in after.tombs
      ensures after.tombs[s] < NextFor(after, s) && (s in after.rows ==> after.tombs[s] < after.rows[s].since)
    {
      TombsStayOlder(db, w, s);
    }
  }

  lemma TombsStayOlder(db: Database, w: Write, s: Slot)
    requires DbOk(db) && CanWrite(db, w) && s in Apply(db, w).tombs
    ensures var after := Apply(db, w);
            after.tombs[s] < NextFor(after, s) && (s in after.rows ==> after.tombs[s] < after.rows[s].since)
  {
    RevisionsGrow(db, w, s);
  }

  /** A write gives a flag only revisions it has not had. */
  lemma RevisionsGrow(db: Database, w: Write, s: Slot)
    requires DbOk(db) && CanWrite(db, w)
    ensures NextFor(Apply(db, w), s) >= NextFor(db, s)
    ensures s in Apply(db, w).rows ==> Apply(db, w).rows[s].revision < NextFor(Apply(db, w), s)
  {
  }

  lemma SegmentWriteContent(db: Database, w: Write, s: Slot)
    requires CanWrite(db, w) && w.PutSegment? && s in db.rows && !Touches(db, w, s)
    ensures Content(Apply(db, w), s) == Content(db, s)
  {
    if s.env == w.env {
      ExpansionIgnoresOtherSegments(db.rows[s].flag, SegmentsOf(db, w.env),
                                    ChangedSegments(SegmentsOf(db, w.env), w.name, w.rules), w.name);
    }
  }

  lemma UntouchedContent(db: Database, w: Write, s: Slot)
    requires CanWrite(db, w) && !Touches(db, w, s)
    ensures Content(Apply(db, w), s) == Content(db, s)
    ensures s in Apply(db, w).rows <==> s in db.rows
    ensures s in db.rows ==> Apply(db, w).rows[s].since == db.rows[s].since
    ensures s in db.rows ==> Apply(db, w).rows[s].flag == db.rows[s].flag
    ensures s in db.rows && DbOk(db) ==> Apply(db, w).rows[s].revision >= db.rows[s].revision
  {
    if w.PutSegment? && s in db.rows {
      SegmentWriteContent(db, w, s);
    }
  }

  lemma WriteKeepsSoundEntry(db: Database, w: Write, s: Slot, m: Mark, flag: Option<Flag>)
    requires DbOk(db) && CanWrite(db, w) && SoundEntry(db, s, m, flag)
    requires w.Prune? && w.slot == s ==> s in db.rows || m.deleted
    ensures SoundEntry(Apply(db, w), s, m, flag)
  {
    RevisionsGrow(db, w, s);
    if !Touches(db, w, s) {
      UntouchedContent(db, w, s);
    }
  }

  lemma WriteKeepsSoundEvent(db: Database, w: Write, env: string, e: Event)
    requires DbOk(db) && CanWrite(db, w) && SoundEvent(db, env, e)
    requires w.Prune? ==> w.slot != Slot(env, Key(e)) || w.slot in db.rows
    ensures SoundEvent(Apply(db, w), env, e)
  {
    WriteKeepsSoundEntry(db, w, Slot(env, Key(e)), MarkOf(e), if e.Upsert? then Some(e.flag) else None);
  }

  lemma WriteKeepsSoundJob(db: Database, w: Write, j: Job)
    requires DbOk(db) && CanWrite(db, w) && SoundJob(db, j)
    requires w.Prune? ==> w.slot != Slot(j.env, Key(JobEvent(db, j))) || w.slot in db.rows
    ensures SoundJob(Apply(db, w), j)
    ensures SameMark(JobEvent(db, j), JobEvent(Apply(db, w), j))
  {
    WriteKeepsSoundEvent(db, w, j.env, JobEvent(db, j));
    if j.Patched? { WriteKeepsPatchedJob(db, w, j); }
  }

  /** A flag write due for publication may be expanded differently after the write, but only if the stored flag is,
      or if it was overtaken. */
  lemma WriteKeepsPatchedJob(db: Database, w: Write, j: Job)
    requires DbOk(db) && CanWrite(db, w) && SoundJob(db, j) && j.Patched?
    requires w.Prune? ==> w.slot != Slot(j.env, j.flag.key) || w.slot in db.rows
    ensures SoundJob(Apply(db, w), j)
  {
    if Touches(db, w, Slot(j.env, j.flag.key)) {
      OvertakenJobIsSound(db, w, j);
    } else {
      UndisturbedJobIsSound(db, w, j);
    }
  }

  lemma OvertakenJobIsSound(db: Database, w: Write, j: Job)
    requires DbOk(db) && CanWrite(db, w) && SoundJob(db, j) && j.Patched? && Touches(db, w, Slot(j.env, j.flag.key))
    ensures SoundJob(Apply(db, w), j)
  {
    hide NextFor, Expand, DbOk;
    var s, after := Slot(j.env, j.flag.key), Apply(db, w);
    RevisionsGrow(db, w, s);
    assert s in after.rows ==> j.revision < after.rows[s].since;
  }

  lemma UndisturbedJobIsSound(db: Database, w: Write, j: Job)
    requires DbOk(db) && CanWrite(db, w) && SoundJob(db, j) && j.Patched? && !Touches(db, w, Slot(j.env, j.flag.key))
    requires w.Prune? ==> w.slot != Slot(j.env, j.flag.key) || w.slot in db.rows
    ensures SoundJob(Apply(db, w), j)
  {
    hide NextFor, Expand, DbOk;
    var s := Slot(j.env, j.flag.key);
    RevisionsGrow(db, w, s);
    UntouchedContent(db, w, s);
    assert s in db.tombs ==> s in Apply(db, w).tombs || s in db.rows;
  }

  predicate SameMark(d: Event, e: Event) {
    Revisioned(d) && Revisioned(e) && Key(d) == Key(e) && MarkOf(d) == MarkOf(e)
  }

  lemma NewJobIsSound(db: Database, w: Write, s: Slot)
    requires DbOk(db) && CanWrite(db, w) && Touches(db, w, s)
    ensures SoundJob(Apply(db, w), JobFor(db, w, s))
    ensures JobFor(db, w, s).env == s.env && Key(JobEvent(Apply(db, w), JobFor(db, w, s))) == s.key
    ensures Decisive(Apply(db, w), s, MarkOf(JobEvent(Apply(db, w), JobFor(db, w, s))))
  {
    match w {
      case Put(_, _, _) => PutJobIsSound(db, w, s);
      case Remove(_) => RemoveJobIsSound(db, w, s);
      case PutSegment(_, _, _, _) => SegmentJobIsSound(db, w, s);
    }
  }

  lemma PutJobIsSound(db: Database, w: Write, s: Slot)
    requires DbOk(db) && CanWrite(db, w) && Touches(db, w, s) && w.Put?
    ensures SoundJob(Apply(db, w), JobFor(db, w, s)) && JobFor(db, w, s).env == s.env
    ensures Key(JobEvent(Apply(db, w), JobFor(db, w, s))) == s.key
    ensures Decisive(Apply(db, w), s, MarkOf(JobEvent(Apply(db, w), JobFor(db, w, s))))
  {
    hide Expand, DbOk;
  }

  lemma RemoveJobIsSound(db: Database, w: Write, s: Slot)
    requires DbOk(db) && CanWrite(db, w) && Touches(db, w, s) && w.Remove?
    ensures SoundJob(Apply(db, w), JobFor(db, w, s)) && JobFor(db, w, s).env == s.env
    ensures Key(JobEvent(Apply(db, w), JobFor(db, w, s))) == s.key
    ensures Decisive(Apply(db, w), s, MarkOf(JobEvent(Apply(db, w), JobFor(db, w, s))))
  {
    hide Expand;
    assert s in db.rows && db.rows[s].revision < NextFor(db, s);
  }

  lemma SegmentJobIsSound(db: Database, w: Write, s: Slot)
    requires DbOk(db) && CanWrite(db, w) && Touches(db, w, s) && w.PutSegment?
    ensures SoundJob(Apply(db, w), JobFor(db, w, s)) && JobFor(db, w, s).env == s.env
    ensures Key(JobEvent(Apply(db, w), JobFor(db, w, s))) == s.key
    ensures Decisive(Apply(db, w), s, MarkOf(JobEvent(Apply(db, w), JobFor(db, w, s))))
  {
    hide Expand, NextFor, Apply, DbOk;
    RewrittenRow(db, w, s);
  }

  /** A segment write gives a flag that refers to the segment its new revision and the new segments. */
  lemma RewrittenRow(db: Database, w: Write, s: Slot)
    requires DbOk(db) && CanWrite(db, w) && Touches(db, w, s) && w.PutSegment?
    ensures var after := Apply(db, w);
            && s.env == w.env && s in db.rows && s in after.rows
            && after.rows[s] == Row(db.rows[s].flag, w.revisions[s], w.revisions[s])
            && SegmentsOf(after, s.env) == ChangedSegments(SegmentsOf(db, w.env), w.name, w.rules)
            && w.revisions[s] < NextFor(after, s)
    ensures Expand(db.rows[s].flag, SegmentsOf(Apply(db, w), s.env)).key == s.key
  {
    hide References;
  }

  /** Whatever was coming is still coming, perhaps with another expansion. */
  ghost predicate StillComing(coming: iset<Event>, after: iset<Event>) {
    forall e :: e in coming ==> exists d :: d in after && SameMark(e, d)
  }

  lemma WriteKeepsSlotOk(db: Database, w: Write, s: Slot, live: Live, coming: iset<Event>, after: iset<Event>)
    requires DbOk(db) && CanWrite(db, w) && SlotOk(db, s, live, coming)
    requires StillComing(coming, after)
    requires Touches(db, w, s) ==> JobEvent(Apply(db, w), JobFor(db, w, s)) in after
    requires w.Prune? && w.slot == s && s !in db.rows ==> forall e :: e in coming ==> !Concerns(e, s.key)
    ensures SlotOk(Apply(db, w), s, live, after)
  {
    if s.key in live.marks {
      WriteKeepsSoundEntry(db, w, s, live.marks[s.key], Lookup(live.cache, s.key));
    }
    if Touches(db, w, s) {
      NewJobIsSound(db, w, s);
    } else if s in Apply(db, w).rows || s in Apply(db, w).tombs {
      UntouchedContent(db, w, s);
      StillDecided(db, Apply(db, w), s, live, coming, after);
    }
  }

  lemma StillDecided(db: Database, later: Database, s: Slot, live: Live, coming: iset<Event>, after: iset<Event>)
    requires Decided(db, s, live, coming) && StillComing(coming, after)
    requires forall m :: Decisive(db, s, m) ==> Decisive(later, s, m)
    ensures Decided(later, s, live, after)
  {
    if !(s.key in live.marks && Decisive(db, s, live.marks[s.key])) {
      var e :| e in coming && Concerns(e, s.key) && Decisive(db, s, MarkOf(e));
      var d :| d in after && SameMark(e, d);
    }
  }

  // ---- Delivering keeps what was said ----

  /** Delivering one of the coming events keeps every slot settled, whether the client takes it or drops it. */
  lemma DeliveryKeepsSlotOk(db: Database, s: Slot, live: Live, e: Event, coming: iset<Event>, after: iset<Event>)
    requires SlotOk(db, s, live, coming) && SoundEvent(db, s.env, e)
    requires forall d :: d in coming && d != e ==> d in after
    ensures SlotOk(db, s, Deliver(live, e), after)
  {
    if Key(e) != s.key {
      assert Lookup(Deliver(live, e).marks, s.key) == Lookup(live.marks, s.key);
      assert Lookup(Deliver(live, e).cache, s.key) == Lookup(live.cache, s.key);
    } else if s.key in live.marks {
      StaleMeansBefore(live.marks[s.key], e);
    }
  }

  /** During a replay each key arrives once. */
  lemma StagingKeepsSlotOk(db: Database, s: Slot, live: Live, e: Event, coming: iset<Event>, after: iset<Event>)
    requires SlotOk(db, s, live, coming) && SoundEvent(db, s.env, e)
    requires Key(e) !in live.marks
    requires forall d :: d in coming && d != e ==> d in after
    ensures SlotOk(db, s, Live(SetFlag(live.cache, e), SetMark(live.marks, e)), after)
  {
    assert Accepts(live, e);
    DeliveryKeepsSlotOk(db, s, live, e, coming, after);
  }

  /** A settled slot with nothing coming serves what the database holds. */
  lemma SettledSlotServes(db: Database, s: Slot, live: Live)
    requires SlotOk(db, s, live, iset{})
    ensures Lookup(live.cache, s.key) == Content(db, s)
  {
  }

  // ---- The replay ----

  /** The replay of one environment: every stored flag, expanded, with its revision, and a delete for every
      tombstone without a flag; each key exactly once, in any order. */
  ghost predicate IsReplay(db: Database, env: string, replay: seq<Event>) {
    && (forall e :: e in replay ==> InReplay(db, env, e))
    && (forall key :: Slot(env, key) in db.rows || Slot(env, key) in db.tombs ==>
          exists e :: e in replay && Concerns(e, key))
    && OncePerKey(replay)
  }

  predicate InReplay(db: Database, env: string, e: Event) {
    && Revisioned(e)
    && var s := Slot(env, Key(e));
       if s in db.rows then e.Upsert? && Some(e.flag) == Content(db, s) && e.revision.value == db.rows[s].revision
       else s in db.tombs && e.Delete? && e.revision.value == db.tombs[s]
  }

  predicate OncePerKey(replay: seq<Event>) {
    forall i, j :: 0 <= i < j < |replay| ==>
      !replay[i].Unrecognized? && !replay[j].Unrecognized? && Key(replay[i]) != Key(replay[j])
  }

  /** Every environment has a replay. */
  lemma ReplayExists(db: Database, env: string) returns (replay: seq<Event>)
    requires DbOk(db)
    ensures IsReplay(db, env, replay)
  {
    var slots := set s | s in db.rows.Keys + db.tombs.Keys && s.env == env;
    replay := ReplayOfSlots(db, env, slots);
    assert Replays(db, env, slots, replay);
    forall key | Slot(env, key) in db.rows || Slot(env, key) in db.tombs
      ensures exists e :: e in replay && Concerns(e, key)
    {
      var e :| e in replay && Concerns(e, Slot(env, key).key);
    }
  }

  predicate Known(db: Database, s: Slot) {
    s in db.rows || s in db.tombs
  }

  /** The one event a replay holds for a known slot. */
  function SlotEvent(db: Database, s: Slot): (e: Event)
    requires DbOk(db) && Known(db, s)
    ensures InReplay(db, s.env, e) && Key(e) == s.key
    ensures e.Upsert? <==> s in db.rows
  {
    if s in db.rows then Upsert(Expand(db.rows[s].flag, SegmentsOf(db, s.env)), Some(db.rows[s].revision))
    else Delete(s.key, Some(db.tombs[s]))
  }

  /** A replay of some of an environment's slots. */
  ghost predicate Replays(db: Database, env: string, slots: set<Slot>, replay: seq<Event>) {
    && (forall e :: e in replay ==> InReplay(db, env, e) && Slot(env, Key(e)) in slots)
    && (forall s :: s in slots ==> exists e :: e in replay && Concerns(e, s.key))
    && OncePerKey(replay)
  }

  lemma {:induction false} ReplayOfSlots(db: Database, env: string, slots: set<Slot>) returns (replay: seq<Event>)
    requires DbOk(db)
    requires forall s :: s in slots ==> s.env == env && Known(db, s)
    ensures Replays(db, env, slots, replay)
    decreases |slots|
  {
    hide DbOk, InReplay, Replays;
    if slots == {} {
      replay := [];
      NothingReplayed(db, env);
    } else {
      var s :| s in slots;
      replay := ReplayOfSlots(db, env, slots - {s});
      OneMore(db, env, slots - {s}, replay, s);
      replay := replay + [SlotEvent(db, s)];
      assert slots - {s} + {s} == slots;
    }
  }

  lemma NothingReplayed(db: Database, env: string)
    ensures Replays(db, env, {}, [])
  {
  }

  lemma OneMore(db: Database, env: string, slots: set<Slot>, replay: seq<Event>, s: Slot)
    requires DbOk(db) && Replays(db, env, slots, replay) && Known(db, s) && s.env == env && s !in slots
    ensures Replays(db, env, slots + {s}, replay + [SlotEvent(db, s)])
  {
    hide DbOk, InReplay;
    var e := SlotEvent(db, s);
    var longer := replay + [e];
    forall i | 0 <= i < |replay| ensures !replay[i].Unrecognized? && Key(replay[i]) != Key(e) {
      assert replay[i] in replay;
    }
    forall x | x in slots + {s} ensures exists d :: d in longer && Concerns(d, x.key) {
      if x == s {
        assert longer[|replay|] == e && Concerns(e, x.key);
      } else {
        var d :| d in replay && Concerns(d, x.key);
        assert d in longer;
      }
    }
  }

  lemma ReplaySettles(db: Database, s: Slot, replay: seq<Event>, coming: iset<Event>)
    requires DbOk(db) && IsReplay(db, s.env, replay)
    requires forall e :: e in replay ==> e in coming
    ensures SlotOk(db, s, Live(map[], map[]), coming)
    ensures forall e :: e in replay ==> SoundEvent(db, s.env, e)
  {
    if s in db.rows || s in db.tombs {
      var e :| e in replay && Concerns(e, s.key);
      ReplayedEventIsSound(db, s.env, e);
      assert Decisive(db, s, MarkOf(e));
    }
    forall e | e in replay ensures SoundEvent(db, s.env, e) {
      ReplayedEventIsSound(db, s.env, e);
    }
  }

  lemma ReplayedEventIsSound(db: Database, env: string, e: Event)
    requires DbOk(db) && InReplay(db, env, e)
    ensures SoundEvent(db, env, e) && Decisive(db, Slot(env, Key(e)), MarkOf(e))
  {
  }
}
