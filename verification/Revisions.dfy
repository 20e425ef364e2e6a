/** Change events and the rule by which a client drops stale ones. */
module Revisions {
  import opened Options
  import opened Flags

  datatype Mark = Mark(revision: int, deleted: bool)

  /** A change event as the client parses it. Events of old servers carry no revision. */
  datatype Event =
    | Upsert(flag: Flag, revision: Option<int>)
    | Delete(deletedKey: string, revision: Option<int>)
    | Unrecognized

  /** The flags a client serves and the last applied revision per key. */
  datatype Live = Live(cache: map<string, Flag>, marks: map<string, Mark>)

  function Lookup<T>(m: map<string, T>, key: string): Option<T> {
    if key in m then Some(m[key]) else None
  }

  function Key(e: Event): string
    requires !e.Unrecognized?
  {
    match e
    case Upsert(flag, _) => flag.key
    case Delete(key, _) => key
  }

  predicate IsStaleEvent(known: Option<Mark>, revision: Option<int>, isUpsert: bool) {
    if known.None? || revision.None? then false
    else if isUpsert && known.value.deleted then revision.value <= known.value.revision
    else revision.value < known.value.revision
  }

  function SetMark(marks: map<string, Mark>, e: Event): map<string, Mark>
    requires !e.Unrecognized?
  {
    if e.revision.None? then marks else marks[Key(e) := Mark(e.revision.value, e.Delete?)]
  }

  function SetFlag(flags: map<string, Flag>, e: Event): map<string, Flag>
    requires !e.Unrecognized?
  {
    if e.Upsert? then flags[Key(e) := e.flag] else flags - {Key(e)}
  }

  predicate Accepts(live: Live, e: Event) {
    !e.Unrecognized? && !IsStaleEvent(Lookup(live.marks, Key(e)), e.revision, e.Upsert?)
  }

  /** The effect of one live event. */
  function Deliver(live: Live, e: Event): Live {
    if Accepts(live, e) then Live(SetFlag(live.cache, e), SetMark(live.marks, e)) else live
  }

  function DeliverAll(live: Live, es: seq<Event>): Live {
    if |es| == 0 then live else Deliver(DeliverAll(live, es[..|es| - 1]), es[|es| - 1])
  }

  // ---- Staleness is one total order ----

  predicate Revisioned(e: Event) {
    !e.Unrecognized? && e.revision.Some?
  }

  function MarkOf(e: Event): Mark
    requires Revisioned(e)
  {
    Mark(e.revision.value, e.Delete?)
  }

  /** By revision, and a delete after the upsert of the same revision. */
  predicate Before(a: Mark, b: Mark) {
    a.revision < b.revision || (a.revision == b.revision && !a.deleted && b.deleted)
  }

  lemma StaleMeansBefore(known: Mark, e: Event)
    requires Revisioned(e)
    ensures IsStaleEvent(Some(known), e.revision, e.Upsert?) <==> Before(MarkOf(e), known)
  {
  }

  // ---- Order independence ----

  predicate Concerns(e: Event, key: string) {
    Revisioned(e) && Key(e) == key
  }

  /** `m` is among the initial mark and the events of the key, and nothing there comes after it. */
  ghost predicate Greatest(live: Live, es: seq<Event>, key: string, m: Mark) {
    && (Lookup(live.marks, key) == Some(m) || exists e :: e in es && Concerns(e, key) && MarkOf(e) == m)
    && (key in live.marks ==> !Before(m, live.marks[key]))
    && forall e :: e in es && Concerns(e, key) ==> !Before(m, MarkOf(e))
  }

  ghost predicate Untouched(es: seq<Event>, key: string) {
    forall e :: e in es ==> !Concerns(e, key)
  }

  /** Some event carries exactly this mark for the key. */
  ghost predicate Carried(es: seq<Event>, key: string, m: Mark) {
    exists e :: e in es && Concerns(e, key) && MarkOf(e) == m
  }

  /** What the last events of a key leave behind: the greatest mark, and the flag that came with it. */
  ghost predicate Settled(live: Live, es: seq<Event>, key: string, after: Live) {
    if key !in after.marks then
      key !in live.marks && Untouched(es, key) && Lookup(after.cache, key) == Lookup(live.cache, key)
    else
      var m := after.marks[key];
      && Greatest(live, es, key, m)
      && (!Carried(es, key, m) ==> Lookup(after.cache, key) == Lookup(live.cache, key))
      && (Carried(es, key, m) && m.deleted ==> key !in after.cache)
      && (Carried(es, key, m) && !m.deleted ==>
            exists e :: e in es && Concerns(e, key) && MarkOf(e) == m && Lookup(after.cache, key) == Some(e.flag))
  }

  lemma {:induction false} EveryKeySettles(live: Live, es: seq<Event>, key: string)
    requires forall e :: e in es ==> Revisioned(e)
    ensures Settled(live, es, key, DeliverAll(live, es))
  {
    if |es| > 0 {
      var init, e := es[..|es| - 1], es[|es| - 1];
      EveryKeySettles(live, init, key);
      SettleStep(live, init, e, key, DeliverAll(live, init));
      assert init + [e] == es;
    }
  }

  lemma SettleStep(live: Live, es: seq<Event>, e: Event, key: string, before: Live)
    requires Revisioned(e) && Settled(live, es, key, before)
    ensures Settled(live, es + [e], key, Deliver(before, e))
  {
    if Key(e) != key {
      OtherKeyStaysSettled(live, es, e, key, before);
    } else if Accepts(before, e) {
      AcceptedEventSettles(live, es, e, key, before);
    } else {
      DroppedEventChangesNothing(live, es, e, key, before);
    }
  }

  lemma OtherKeyStaysSettled(live: Live, es: seq<Event>, e: Event, key: string, before: Live)
    requires Revisioned(e) && Settled(live, es, key, before) && Key(e) != key
    ensures Settled(live, es + [e], key, Deliver(before, e))
  {
    var all, after := es + [e], Deliver(before, e);
    assert forall x :: x in all <==> x in es || x == e;
    assert Lookup(after.marks, key) == Lookup(before.marks, key);
    assert Lookup(after.cache, key) == Lookup(before.cache, key);
  }

  lemma AcceptedEventSettles(live: Live, es: seq<Event>, e: Event, key: string, before: Live)
    requires Revisioned(e) && Settled(live, es, key, before) && Key(e) == key && Accepts(before, e)
    ensures Settled(live, es + [e], key, Deliver(before, e))
  {
    var all, after := es + [e], Deliver(before, e);
    assert forall x :: x in all <==> x in es || x == e;
    if key in before.marks { StaleMeansBefore(before.marks[key], e); }
    assert after.marks[key] == MarkOf(e);
    assert Carried(all, key, MarkOf(e));
  }

  lemma DroppedEventChangesNothing(live: Live, es: seq<Event>, e: Event, key: string, before: Live)
    requires Revisioned(e) && Settled(live, es, key, before) && Key(e) == key && !Accepts(before, e)
    ensures Settled(live, es + [e], key, Deliver(before, e))
  {
    assert forall x :: x in es + [e] <==> x in es || x == e;
    StaleMeansBefore(before.marks[key], e);
  }

  ghost predicate SameEvents(es: seq<Event>, fs: seq<Event>) {
    forall e :: e in es <==> e in fs
  }

  /** No two different flags compete for the greatest revision of a key. */
  ghost predicate Unambiguous(live: Live, es: seq<Event>) {
    forall d, e | d in es && e in es && Compete(live, es, d, e) :: d.flag == e.flag
  }

  ghost predicate Compete(live: Live, es: seq<Event>, d: Event, e: Event) {
    && Revisioned(d) && Revisioned(e) && d.Upsert? && e.Upsert? && Key(d) == Key(e)
    && MarkOf(d) == MarkOf(e) && Greatest(live, es, Key(e), MarkOf(e))
  }

  /** The outcome depends only on which events arrive, however often and in whatever order, exactly when
      the events are unambiguous. */
  lemma OrderIndependence(live: Live, es: seq<Event>)
    requires forall e :: e in es ==> Revisioned(e)
    ensures Unambiguous(live, es)
       <==> forall fs :: SameEvents(es, fs) ==> DeliverAll(live, fs) == DeliverAll(live, es)
  {
    if Unambiguous(live, es) {
      forall fs | SameEvents(es, fs) ensures DeliverAll(live, fs) == DeliverAll(live, es) {
        SameFinalState(live, es, fs);
      }
    } else {
      AmbiguityShows(live, es);
    }
  }

  lemma AmbiguityShows(live: Live, es: seq<Event>)
    requires forall e :: e in es ==> Revisioned(e)
    requires !Unambiguous(live, es)
    ensures exists fs :: SameEvents(es, fs) && DeliverAll(live, fs) != DeliverAll(live, es)
  {
    hide Greatest, DeliverAll;
    var d, e :| d in es && e in es && Compete(live, es, d, e) && d.flag != e.flag;
    LastWinnerStays(live, es, d);
    LastWinnerStays(live, es, e);
    assert Lookup(DeliverAll(live, es + [d]).cache, Key(e)) != Lookup(DeliverAll(live, es + [e]).cache, Key(e));
    assert SameEvents(es, es + [d]) && SameEvents(es, es + [e]);
    var fs := if DeliverAll(live, es + [d]) != DeliverAll(live, es) then es + [d] else es + [e];
    assert SameEvents(es, fs) && DeliverAll(live, fs) != DeliverAll(live, es);
  }

  /** Two flags that compete: whichever arrives last stays. */
  lemma OrderMatters(d: Flag, e: Flag, revision: int)
    requires d.key == e.key && d != e
    ensures var first, second := Upsert(d, Some(revision)), Upsert(e, Some(revision));
            && SameEvents([first, second], [second, first])
            && DeliverAll(Live(map[], map[]), [first, second]).cache == map[e.key := e]
            && DeliverAll(Live(map[], map[]), [second, first]).cache == map[d.key := d]
  {
    TwoDelivered(d, e, revision);
    TwoDelivered(e, d, revision);
  }

  lemma TwoDelivered(d: Flag, e: Flag, revision: int)
    requires d.key == e.key
    ensures DeliverAll(Live(map[], map[]), [Upsert(d, Some(revision)), Upsert(e, Some(revision))]).cache
         == map[e.key := e]
  {
    var es := [Upsert(d, Some(revision)), Upsert(e, Some(revision))];
    assert es[..1] == [es[0]] && [es[0]][..0] == [];
    assert DeliverAll(Live(map[], map[]), []) == Live(map[], map[]);
    assert DeliverAll(Live(map[], map[]), [es[0]]).cache == map[d.key := d];
  }

  lemma SameFinalState(live: Live, es: seq<Event>, fs: seq<Event>)
    requires forall e :: e in es ==> Revisioned(e)
    requires Unambiguous(live, es) && SameEvents(es, fs)
    ensures DeliverAll(live, fs) == DeliverAll(live, es)
  {
    var a, b := DeliverAll(live, fs), DeliverAll(live, es);
    forall key
      ensures Lookup(a.marks, key) == Lookup(b.marks, key)
      ensures Lookup(a.cache, key) == Lookup(b.cache, key)
    {
      SameOutcome(live, es, fs, key);
    }
    SameMap(a.marks, b.marks);
    SameMap(a.cache, b.cache);
  }

  lemma SameMap<T>(m: map<string, T>, n: map<string, T>)
    requires forall k :: Lookup(m, k) == Lookup(n, k)
    ensures m == n
  {
    assert forall k :: k in m <==> Lookup(m, k).Some?;
    assert forall k :: k in n <==> Lookup(n, k).Some?;
    forall k | k in m ensures m[k] == n[k] {
      assert Lookup(m, k) == Lookup(n, k);
    }
  }

  lemma GreatestIsUnique(live: Live, es: seq<Event>, key: string, m: Mark, n: Mark)
    requires Greatest(live, es, key, m) && Greatest(live, es, key, n)
    ensures m == n
  {
  }

  lemma SettledForSameEvents(live: Live, es: seq<Event>, fs: seq<Event>, key: string, after: Live)
    requires SameEvents(es, fs) && Settled(live, fs, key, after)
    ensures Settled(live, es, key, after)
  {
  }

  lemma SettledOnce(live: Live, es: seq<Event>, key: string, a: Live, b: Live)
    requires Unambiguous(live, es) && Settled(live, es, key, a) && Settled(live, es, key, b)
    ensures Lookup(a.marks, key) == Lookup(b.marks, key)
    ensures Lookup(a.cache, key) == Lookup(b.cache, key)
  {
    if key in a.marks && key in b.marks {
      var m := a.marks[key];
      GreatestIsUnique(live, es, key, m, b.marks[key]);
      if Carried(es, key, m) && !m.deleted {
        var d :| d in es && Concerns(d, key) && MarkOf(d) == m && Lookup(a.cache, key) == Some(d.flag);
        var e :| e in es && Concerns(e, key) && MarkOf(e) == m && Lookup(b.cache, key) == Some(e.flag);
        assert Compete(live, es, d, e);
      }
    } else if key in a.marks {
      assert Untouched(es, key) && key !in live.marks;
      assert !Carried(es, key, a.marks[key]);
    } else if key in b.marks {
      assert Untouched(es, key) && key !in live.marks;
      assert !Carried(es, key, b.marks[key]);
    }
  }

  lemma SameOutcome(live: Live, es: seq<Event>, fs: seq<Event>, key: string)
    requires forall e :: e in es ==> Revisioned(e)
    requires Unambiguous(live, es) && SameEvents(es, fs)
    ensures Lookup(DeliverAll(live, fs).marks, key) == Lookup(DeliverAll(live, es).marks, key)
    ensures Lookup(DeliverAll(live, fs).cache, key) == Lookup(DeliverAll(live, es).cache, key)
  {
    EveryKeySettles(live, es, key);
    EveryKeySettles(live, fs, key);
    SettledForSameEvents(live, es, fs, key, DeliverAll(live, fs));
    SettledOnce(live, es, key, DeliverAll(live, es), DeliverAll(live, fs));
  }

  /** Repeating a winning upsert at the end makes its flag the outcome. */
  lemma LastWinnerStays(live: Live, es: seq<Event>, e: Event)
    requires forall x :: x in es ==> Revisioned(x)
    requires e in es && e.Upsert? && Greatest(live, es, Key(e), MarkOf(e))
    ensures Lookup(DeliverAll(live, es + [e]).cache, Key(e)) == Some(e.flag)
  {
    var before := DeliverAll(live, es);
    EveryKeySettles(live, es, Key(e));
    assert (es + [e])[..|es|] == es;
    assert before.marks[Key(e)] == MarkOf(e);
    StaleMeansBefore(MarkOf(e), e);
  }
}
