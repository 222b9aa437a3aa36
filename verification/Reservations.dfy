/** The Reserve and Release messages of the cache tracker actor (`query_lib/src/data_access.rs`).
    Tables are kept in an LRU by size; a table pushed out of it waits in a queue until nobody holds a
    reservation on it. */
module Reservations {
  import opened Prelude

  /** A top-level table in the LRU, with the memory the LRU counts for it. */
  datatype Entry = Entry(name: string, size: nat)

  /** The LRU, least recently used first; `queue` is `top_level_to_delete`. */
  datatype Actor = Actor(
    lru: seq<Entry>, related: map<string, seq<string>>, reservations: map<string, nat>, queue: seq<string>)

  function Used(lru: seq<Entry>): nat {
    if |lru| == 0 then 0 else lru[0].size + Used(lru[1..])
  }

  predicate InLru(lru: seq<Entry>, name: string) {
    exists i :: 0 <= i < |lru| && lru[i].name == name
  }

  function Named(lru: seq<Entry>): set<string> {
    set e | e in lru :: e.name
  }

  function Count(res: map<string, nat>, name: string): nat {
    if name in res then res[name] else 0
  }

  // ------------------------------------------------------------------ reserve

  function RemoveName(lru: seq<Entry>, name: string): seq<Entry> {
    Filter(lru, (e: Entry) => e.name != name)
  }

  /** What `try_insert` answers.  Which of two applicable errors it reports first does not matter here,
      and is left to `occupiedFirst`. */
  datatype Answer = Inserted | TooLarge | Occupied | WouldEject

  function TryInsert(lru: seq<Entry>, capacity: nat, e: Entry, occupiedFirst: bool): Answer {
    if e.size > capacity then TooLarge
    else if occupiedFirst && InLru(lru, e.name) then Occupied
    else if Used(lru) + e.size > capacity then WouldEject
    else if InLru(lru, e.name) then Occupied
    else Inserted
  }

  lemma {:induction false} RemoveShrinks(lru: seq<Entry>, name: string)
    ensures |RemoveName(lru, name)| <= |lru|
    ensures InLru(lru, name) ==> |RemoveName(lru, name)| < |lru|
  {
    if InLru(lru, name) {
      var m := |lru| - 1;
      assert lru == lru[..m] + [lru[m]];
      FilterStep(lru[..m], lru[m], (e: Entry) => e.name != name);
      if lru[m].name != name {
        var i :| 0 <= i < |lru| && lru[i].name == name;
        assert lru[..m][i].name == name;
        RemoveShrinks(lru[..m], name);
      }
    }
  }

  /** The retry loop of Reserve: the new LRU and the names it pushed out, in order. */
  function Fit(lru: seq<Entry>, capacity: nat, e: Entry, occupiedFirst: bool): (r: (seq<Entry>, seq<string>))
    requires e.size <= capacity
    decreases |lru|
  {
    match TryInsert(lru, capacity, e, occupiedFirst)
    case Inserted => (lru + [e], [])
    case Occupied =>
      RemoveShrinks(lru, e.name);
      Fit(RemoveName(lru, e.name), capacity, e, occupiedFirst)
    case WouldEject =>
      var rest := Fit(lru[1..], capacity, e, occupiedFirst);
      (rest.0, [lru[0].name] + rest.1)
  }

  function MergeNames(names: seq<string>, more: seq<string>): seq<string> {
    if |more| == 0 then names
    else
      var r := MergeNames(names, more[..|more| - 1]);
      if more[|more| - 1] in r then r else r + [more[|more| - 1]]
  }

  /** Reserve; `None` where the source aborts. */
  function Reserve(s: Actor, capacity: nat, name: string, more: seq<string>, size: nat, occupiedFirst: bool)
    : Option<Actor>
  {
    if size == 0 || size > capacity then None
    else
      var fit := Fit(s.lru, capacity, Entry(name, size), occupiedFirst);
      Some(Actor(fit.0,
                 s.related[name := if name in s.related then MergeNames(s.related[name], more) else more],
                 s.reservations[name := Count(s.reservations, name) + 1],
                 s.queue + fit.1))
  }

  // ------------------------------------------------------------------ release

  /** `drop` for a list of names. */
  function DropNames(res: map<string, nat>, names: seq<string>): map<string, nat> {
    map n | n in res && n !in names :: res[n]
  }

  function RelatedTo(related: map<string, seq<string>>, name: string): seq<string> {
    if name in related then related[name] else []
  }

  /** The last loop of Release: what is left, and every table dropped, in order. */
  function DropAll(res: map<string, nat>, related: map<string, seq<string>>, names: seq<string>)
    : (map<string, nat>, map<string, seq<string>>, seq<string>)
  {
    if |names| == 0 then (res, related, [])
    else
      var d := DropAll(res, related, names[..|names| - 1]);
      var n := names[|names| - 1];
      var gone := [n] + RelatedTo(d.1, n);
      (DropNames(d.0, gone), d.1 - {n}, d.2 + gone)
  }

  function Droppable(res: map<string, nat>, queue: seq<string>): seq<string> {
    Filter(queue, (n: string) => Count(res, n) == 0)
  }

  function Minus(queue: seq<string>, gone: seq<string>): seq<string> {
    Filter(queue, (n: string) => n !in gone)
  }

  /** The two loops of Release: queued tables without a reservation go, and what is related to them. */
  function DropQueued(s: Actor): (Actor, seq<string>) {
    var gone := Droppable(s.reservations, s.queue);
    var d := DropAll(s.reservations, s.related, gone);
    (Actor(s.lru, d.1, d.0, Minus(s.queue, gone)), d.2)
  }

  /** Release, with the tables it drops; `None` where the source aborts. */
  function Release(s: Actor, name: string): Option<(Actor, seq<string>)> {
    if Count(s.reservations, name) == 0 then None
    else Some(DropQueued(s.(reservations := s.reservations[name := s.reservations[name] - 1])))
  }

  // ------------------------------------------------------- what Reserve keeps

  predicate UniqueNames(lru: seq<Entry>) {
    forall i, j :: 0 <= i < j < |lru| ==> lru[i].name != lru[j].name
  }

  lemma {:induction false} UsedConcat(a: seq<Entry>, b: seq<Entry>)
    ensures Used(a + b) == Used(a) + Used(b)
  {
    if |a| == 0 {
      assert a + b == b;
    } else {
      assert (a + b)[1..] == a[1..] + b;
      UsedConcat(a[1..], b);
    }
  }

  lemma {:induction false} RemoveNameMeaning(lru: seq<Entry>, name: string)
    requires UniqueNames(lru)
    ensures UniqueNames(RemoveName(lru, name)) && Named(RemoveName(lru, name)) == Named(lru) - {name}
  {
    var r := RemoveName(lru, name);
    forall n
      ensures n in Named(r) <==> n in Named(lru) && n != name
    {
      if n in Named(lru) && n != name {
        var e :| e in lru && e.name == n;
        assert e in r;
      }
    }
    FilterUniqueNames(lru, (e: Entry) => e.name != name);
  }

  lemma {:induction false} FilterUniqueNames(lru: seq<Entry>, p: Entry -> bool)
    requires UniqueNames(lru)
    ensures UniqueNames(Filter(lru, p))
  {
    if |lru| != 0 {
      var m := |lru| - 1;
      FilterUniqueNames(lru[..m], p);
      var r := Filter(lru[..m], p);
      forall i | 0 <= i < |r|
        ensures r[i].name != lru[m].name
      {
        assert r[i] in lru[..m];
      }
    }
  }

  lemma TailNames(lru: seq<Entry>)
    requires |lru| > 0
    ensures Named(lru) == Named(lru[1..]) + {lru[0].name}
  {
    assert lru == [lru[0]] + lru[1..];
  }

  lemma SnocNames(lru: seq<Entry>, e: Entry)
    ensures Named(lru + [e]) == Named(lru) + {e.name}
  {
  }

  lemma InLruNamed(lru: seq<Entry>, name: string)
    ensures InLru(lru, name) <==> name in Named(lru)
  {
    if InLru(lru, name) {
      var i :| 0 <= i < |lru| && lru[i].name == name;
      assert lru[i] in lru;
    }
  }

  lemma SnocUnique(lru: seq<Entry>, e: Entry)
    requires UniqueNames(lru) && !InLru(lru, e.name)
    ensures UniqueNames(lru + [e])
  {
  }

  /** The loop ends within capacity, with the table as the most recent one. */
  lemma {:induction false} FitSize(lru: seq<Entry>, capacity: nat, e: Entry, occupiedFirst: bool)
    requires UniqueNames(lru) && e.size <= capacity
    ensures var r := Fit(lru, capacity, e, occupiedFirst);
            && UniqueNames(r.0) && Used(r.0) <= capacity
            && |r.0| > 0 && r.0[|r.0| - 1] == e
    decreases |lru|
  {
    match TryInsert(lru, capacity, e, occupiedFirst) {
      case Inserted =>
        UsedConcat(lru, [e]);
        SnocUnique(lru, e);
      case Occupied =>
        RemoveShrinks(lru, e.name);
        RemoveNameMeaning(lru, e.name);
        FitSize(RemoveName(lru, e.name), capacity, e, occupiedFirst);
      case WouldEject => FitSize(lru[1..], capacity, e, occupiedFirst);
    }
  }

  function AsSet(names: seq<string>): set<string> {
    set n | n in names
  }

  /** Every name that leaves the LRU is reported: nothing is lost. */
  lemma {:induction false} FitNames(lru: seq<Entry>, capacity: nat, e: Entry, occupiedFirst: bool)
    requires UniqueNames(lru) && e.size <= capacity
    ensures var r := Fit(lru, capacity, e, occupiedFirst);
            && Named(lru) + {e.name} == Named(r.0) + AsSet(r.1)
            && AsSet(r.1) <= Named(lru)
    decreases |lru|
  {
    match TryInsert(lru, capacity, e, occupiedFirst) {
      case Inserted => SnocNames(lru, e);
      case Occupied =>
        RemoveShrinks(lru, e.name);
        RemoveNameMeaning(lru, e.name);
        FitNames(RemoveName(lru, e.name), capacity, e, occupiedFirst);
        InLruNamed(lru, e.name);
      case WouldEject =>
        TailNames(lru);
        FitNames(lru[1..], capacity, e, occupiedFirst);
        var rest := Fit(lru[1..], capacity, e, occupiedFirst);
        assert AsSet([lru[0].name] + rest.1) == {lru[0].name} + AsSet(rest.1);
    }
  }

  // ------------------------------------------------------- what Release keeps

  lemma {:induction false} DropAllMeaning(res: map<string, nat>, related: map<string, seq<string>>, names: seq<string>)
    requires forall n :: n in names ==> Count(res, n) == 0
    requires forall n, x :: n in related && x in related[n] ==> Count(res, x) == 0
    ensures var d := DropAll(res, related, names);
            && (forall n :: n in d.2 ==> Count(res, n) == 0)
            && (forall n :: Count(d.0, n) == Count(res, n))
            && (forall n :: n in d.1 ==> n in related && d.1[n] == related[n])
            && (forall n :: n in names ==> n in d.2)
            && (forall n :: n in d.2 ==> n in names || exists t :: t in related && n in related[t])
  {
    if |names| != 0 {
      var m := |names| - 1;
      DropAllMeaning(res, related, names[..m]);
      assert names == names[..m] + [names[m]];
      var d := DropAll(res, related, names[..m]);
      var gone := [names[m]] + RelatedTo(d.1, names[m]);
      forall n | n in gone
        ensures Count(res, n) == 0
        ensures n in names || exists t :: t in related && n in related[t]
      {
      }
    }
  }

  lemma QueueKept(res: map<string, nat>, queue: seq<string>, n: string)
    ensures n in Droppable(res, queue) <==> n in queue && Count(res, n) == 0
    ensures n in Minus(queue, Droppable(res, queue)) <==> n in queue && Count(res, n) > 0
  {
  }

  lemma DropQueuedSafe(t: Actor)
    requires forall n, x :: n in t.related && x in t.related[n] ==> Count(t.reservations, x) == 0
    ensures var r := DropQueued(t);
            && (forall n :: n in r.1 ==> Count(t.reservations, n) == 0)
            && (forall n :: Count(r.0.reservations, n) == Count(t.reservations, n))
            && (forall n :: n in r.0.related ==> n in t.related && r.0.related[n] == t.related[n])
            && (forall n :: n in r.0.queue <==> n in t.queue && Count(t.reservations, n) > 0)
            && (forall n :: n in t.queue ==> n in r.0.queue || n in r.1)
            && (forall n :: n in r.1 ==> n in t.queue || exists o :: o in t.related && n in t.related[o])
  {
    var gone := Droppable(t.reservations, t.queue);
    forall n
      ensures n in gone <==> n in t.queue && Count(t.reservations, n) == 0
      ensures n in Minus(t.queue, gone) <==> n in t.queue && Count(t.reservations, n) > 0
    {
      QueueKept(t.reservations, t.queue, n);
    }
    DropAllMeaning(t.reservations, t.related, gone);
  }

  /** Release drops no table that anyone still holds a reservation on, and changes no other count. */
  lemma ReleaseSafe(s: Actor, name: string)
    requires Release(s, name).Some?
    requires forall n, x :: n in s.related && x in s.related[n] ==> Count(s.reservations, x) == 0
    ensures var r := Release(s, name).value;
            && (forall n :: n in r.1 ==> Count(r.0.reservations, n) == 0)
            && (forall n :: Count(r.0.reservations, n)
                            == if n == name then Count(s.reservations, n) - 1 else Count(s.reservations, n))
            && (forall n :: n in r.0.related ==> n in s.related && r.0.related[n] == s.related[n])
            && (forall n :: n in r.0.queue <==> n in s.queue && Count(r.0.reservations, n) > 0)
            && (forall n :: n in s.queue ==> n in r.0.queue || n in r.1)
            && (forall n :: n in r.1 ==> n in s.queue || exists t :: t in s.related && n in s.related[t])
  {
    var t := s.(reservations := s.reservations[name := s.reservations[name] - 1]);
    forall n, x | n in t.related && x in t.related[n]
      ensures Count(t.reservations, x) == 0
    {
      assert Count(s.reservations, x) == 0;
    }
    DropQueuedSafe(t);
  }

  // --------------------------------------------------------------------- runs

  datatype Message =
    | ReserveMessage(name: string, more: seq<string>, size: nat, occupiedFirst: bool)
    | ReleaseMessage(name: string)

  /** The actor after a message, and the tables it dropped. */
  function Handle(s: Actor, capacity: nat, m: Message): Option<(Actor, seq<string>)> {
    match m
    case ReserveMessage(name, more, size, first) =>
      (match Reserve(s, capacity, name, more, size, first)
       case Some(t) => Some((t, []))
       case None => None)
    case ReleaseMessage(name) => Release(s, name)
  }

  function Run(capacity: nat, ms: seq<Message>): Option<Actor> {
    if |ms| == 0 then Some(Actor([], map[], map[], []))
    else
      match Run(capacity, ms[..|ms| - 1])
      case None => None
      case Some(s) =>
        match Handle(s, capacity, ms[|ms| - 1])
        case None => None
        case Some(r) => Some(r.0)
  }

  /** Reservations taken minus reservations given back. */
  function Outstanding(ms: seq<Message>, name: string): int {
    if |ms| == 0 then 0
    else
      var m := ms[|ms| - 1];
      Outstanding(ms[..|ms| - 1], name) + if m.name != name then 0 else if m.ReserveMessage? then 1 else -1
  }

  /** Releases match reserves, tables fit, and related names are never reserved themselves. */
  ghost predicate WellUsed(capacity: nat, tops: set<string>, ms: seq<Message>) {
    forall i :: 0 <= i < |ms| ==> MessageOk(capacity, tops, ms, i)
  }

  ghost predicate MessageOk(capacity: nat, tops: set<string>, ms: seq<Message>, i: nat)
    requires i < |ms|
  {
    match ms[i]
    case ReserveMessage(name, more, size, _) =>
      0 < size <= capacity && name in tops && forall x :: x in more ==> x !in tops
    case ReleaseMessage(name) => Outstanding(ms[..i], name) > 0
  }

  /** The counts are the outstanding reservations; only top-level names are cached or queued, and no related name is
      one. */
  ghost predicate Good(capacity: nat, tops: set<string>, ms: seq<Message>, s: Actor) {
    && (forall n :: Count(s.reservations, n) == Outstanding(ms, n))
    && (forall n :: n !in tops ==> Outstanding(ms, n) == 0)
    && (forall n, x :: n in s.related && x in s.related[n] ==> x !in tops)
    && UniqueNames(s.lru) && Used(s.lru) <= capacity
    && Named(s.lru) <= tops && AsSet(s.queue) <= tops
  }

  lemma {:induction false} MergeNamesIn(names: seq<string>, more: seq<string>, x: string)
    ensures x in MergeNames(names, more) <==> x in names || x in more
  {
    if |more| != 0 {
      MergeNamesIn(names, more[..|more| - 1], x);
      assert more == more[..|more| - 1] + [more[|more| - 1]];
    }
  }

  lemma ReserveGood(capacity: nat, tops: set<string>, ms: seq<Message>, s: Actor, m: Message)
    requires Good(capacity, tops, ms, s) && m.ReserveMessage? && MessageOk(capacity, tops, ms + [m], |ms|)
    ensures Handle(s, capacity, m).Some? && Good(capacity, tops, ms + [m], Handle(s, capacity, m).value.0)
  {
    var t := Handle(s, capacity, m).value.0;
    var e := Entry(m.name, m.size);
    assert (ms + [m])[..|ms|] == ms;
    FitSize(s.lru, capacity, e, m.occupiedFirst);
    FitNames(s.lru, capacity, e, m.occupiedFirst);
    forall n, x | n in t.related && x in t.related[n]
      ensures x !in tops
    {
      if n == m.name && n in s.related { MergeNamesIn(s.related[n], m.more, x); }
    }
    var fit := Fit(s.lru, capacity, e, m.occupiedFirst);
    assert AsSet(s.queue + fit.1) == AsSet(s.queue) + AsSet(fit.1);
  }

  lemma ReleaseGood(capacity: nat, tops: set<string>, ms: seq<Message>, s: Actor, m: Message)
    requires Good(capacity, tops, ms, s) && m.ReleaseMessage? && MessageOk(capacity, tops, ms + [m], |ms|)
    ensures Handle(s, capacity, m).Some? && Good(capacity, tops, ms + [m], Handle(s, capacity, m).value.0)
    ensures var r := Handle(s, capacity, m).value;
            && (forall n :: n in r.1 ==> Outstanding(ms + [m], n) == 0)
            && AsSet(r.0.queue) == AsSet(s.queue) - AsSet(r.1)
  {
    assert (ms + [m])[..|ms|] == ms;
    assert Count(s.reservations, m.name) > 0;
    forall n, x | n in s.related && x in s.related[n]
      ensures Count(s.reservations, x) == 0
    {
      assert x !in tops;
    }
    ReleaseSafe(s, m.name);
    var r := Release(s, m.name).value;
    forall n
      ensures n in r.0.queue <==> n in s.queue && n !in r.1
    {
    }
  }

  lemma WellUsedPrefix(capacity: nat, tops: set<string>, ms: seq<Message>)
    requires WellUsed(capacity, tops, ms) && |ms| > 0
    ensures WellUsed(capacity, tops, ms[..|ms| - 1])
  {
    var p := ms[..|ms| - 1];
    forall i | 0 <= i < |p|
      ensures MessageOk(capacity, tops, p, i)
    {
      assert MessageOk(capacity, tops, ms, i);
      assert p[..i] == ms[..i];
    }
  }

  /** A well used actor never aborts, and its counts are always the outstanding reservations. */
  lemma {:induction false} RunGood(capacity: nat, tops: set<string>, ms: seq<Message>)
    requires WellUsed(capacity, tops, ms)
    ensures Run(capacity, ms).Some? && Good(capacity, tops, ms, Run(capacity, ms).value)
  {
    if |ms| != 0 {
      var k := |ms| - 1;
      WellUsedPrefix(capacity, tops, ms);
      RunGood(capacity, tops, ms[..k]);
      var s := Run(capacity, ms[..k]).value;
      assert ms == ms[..k] + [ms[k]];
      assert MessageOk(capacity, tops, ms, k);
      if ms[k].ReserveMessage? {
        ReserveGood(capacity, tops, ms[..k], s, ms[k]);
      } else {
        ReleaseGood(capacity, tops, ms[..k], s, ms[k]);
      }
    }
  }

  /** The tables that message `i` of a run drops. */
  function DroppedBy(capacity: nat, ms: seq<Message>, i: nat): seq<string>
    requires i < |ms|
  {
    match Run(capacity, ms[..i])
    case None => []
    case Some(s) =>
      match Handle(s, capacity, ms[i])
      case None => []
      case Some(r) => r.1
  }

  /** No message ever drops a table on which a reservation is outstanding. */
  lemma NeverDropsReserved(capacity: nat, tops: set<string>, ms: seq<Message>, i: nat)
    requires WellUsed(capacity, tops, ms) && i < |ms|
    ensures forall n :: n in DroppedBy(capacity, ms, i) ==> Outstanding(ms[..i + 1], n) == 0
  {
    var p := ms[..i + 1];
    assert p == ms[..i] + [ms[i]];
    PrefixWellUsed(capacity, tops, ms, i + 1);
    assert MessageOk(capacity, tops, p, i);
    assert p[..i] == ms[..i];
    WellUsedPrefix(capacity, tops, p);
    RunGood(capacity, tops, ms[..i]);
    if ms[i].ReleaseMessage? { ReleaseGood(capacity, tops, ms[..i], Run(capacity, ms[..i]).value, ms[i]); }
  }

  lemma {:induction false} PrefixWellUsed(capacity: nat, tops: set<string>, ms: seq<Message>, i: nat)
    requires WellUsed(capacity, tops, ms) && i <= |ms|
    ensures WellUsed(capacity, tops, ms[..i])
    decreases |ms|
  {
    if i == |ms| {
      assert ms[..i] == ms;
    } else {
      WellUsedPrefix(capacity, tops, ms);
      assert ms[..|ms| - 1][..i] == ms[..i];
      PrefixWellUsed(capacity, tops, ms[..|ms| - 1], i);
    }
  }

  /** The names pushed out of the LRU and not dropped since. */
  function PushedOut(capacity: nat, ms: seq<Message>): set<string> {
    if |ms| == 0 then {}
    else
      var k := |ms| - 1;
      var before := PushedOut(capacity, ms[..k]);
      match (Run(capacity, ms[..k]), ms[k])
      case (Some(s), ReserveMessage(name, _, size, first)) =>
        if size <= capacity then before + AsSet(Fit(s.lru, capacity, Entry(name, size), first).1) else before
      case _ => before - AsSet(DroppedBy(capacity, ms, k))
  }

  /** Exactly the names that were pushed out and not dropped since are queued. */
  lemma {:induction false} PushedOutStayQueued(capacity: nat, tops: set<string>, ms: seq<Message>)
    requires WellUsed(capacity, tops, ms)
    ensures Run(capacity, ms).Some? && AsSet(Run(capacity, ms).value.queue) == PushedOut(capacity, ms)
  {
    RunGood(capacity, tops, ms);
    if |ms| != 0 {
      var k := |ms| - 1;
      WellUsedPrefix(capacity, tops, ms);
      PushedOutStayQueued(capacity, tops, ms[..k]);
      RunGood(capacity, tops, ms[..k]);
      assert ms == ms[..k] + [ms[k]];
      assert MessageOk(capacity, tops, ms, k);
      QueuedStep(capacity, tops, ms[..k], Run(capacity, ms[..k]).value, ms[k], PushedOut(capacity, ms[..k]));
    }
  }

  /** What a message does to the queue. */
  lemma QueuedStep(capacity: nat, tops: set<string>, ms: seq<Message>, s: Actor, m: Message, before: set<string>)
    requires Good(capacity, tops, ms, s) && MessageOk(capacity, tops, ms + [m], |ms|) && AsSet(s.queue) == before
    ensures Handle(s, capacity, m).Some?
    ensures m.ReserveMessage? ==>
              && m.size <= capacity
              && AsSet(Handle(s, capacity, m).value.0.queue)
                 == before + AsSet(Fit(s.lru, capacity, Entry(m.name, m.size), m.occupiedFirst).1)
    ensures m.ReleaseMessage? ==>
              AsSet(Handle(s, capacity, m).value.0.queue) == before - AsSet(Handle(s, capacity, m).value.1)
  {
    if m.ReserveMessage? {
      var fit := Fit(s.lru, capacity, Entry(m.name, m.size), m.occupiedFirst);
      assert AsSet(s.queue + fit.1) == AsSet(s.queue) + AsSet(fit.1);
    } else {
      ReleaseGood(capacity, tops, ms, s, m);
    }
  }

  // ------------------------------------------------- dropped while cached

  /** Release drops a table that the LRU still counts exactly when that table is queued as well and its last
      reservation is gone: a table that was pushed out, reserved again and then given back. */
  lemma DropsCached(s: Actor, name: string, n: string)
    requires Release(s, name).Some?
    requires forall t, x :: t in s.related && x in s.related[t] ==> Count(s.reservations, x) == 0 && x !in Named(s.lru)
    ensures var r := Release(s, name).value;
            n in r.1 && n in Named(r.0.lru) <==>
            n in Named(s.lru) && n in s.queue && Count(s.reservations, n) == if n == name then 1 else 0
  {
    ReleaseSafe(s, name);
  }

  /** The same in every well used run, in terms of the messages so far. */
  lemma CachedTablesDropped(capacity: nat, tops: set<string>, ms: seq<Message>, i: nat, n: string)
    requires WellUsed(capacity, tops, ms) && i < |ms| && ms[i].ReleaseMessage?
    ensures Run(capacity, ms[..i]).Some?
    ensures n in Named(Run(capacity, ms[..i]).value.lru) ==>
              (n in DroppedBy(capacity, ms, i) <==>
               n in PushedOut(capacity, ms[..i]) && Outstanding(ms[..i], n) == if n == ms[i].name then 1 else 0)
  {
    PrefixWellUsed(capacity, tops, ms, i);
    RunGood(capacity, tops, ms[..i]);
    PushedOutStayQueued(capacity, tops, ms[..i]);
    var s := Run(capacity, ms[..i]).value;
    assert MessageOk(capacity, tops, ms, i);
    assert Count(s.reservations, ms[i].name) > 0;
    forall t, x | t in s.related && x in s.related[t]
      ensures Count(s.reservations, x) == 0 && x !in Named(s.lru)
    {
      assert x !in tops;
    }
    DropsCached(s, ms[i].name, n);
    assert n in AsSet(s.queue) <==> n in s.queue;
  }

  /** Two tables share room for one: "a" is pushed out by "b", comes back, and is dropped at its release. */
  const A_RETURNS: seq<Message> := [
    ReserveMessage("a", [], 1, true), ReleaseMessage("a"), ReserveMessage("b", [], 1, true),
    ReserveMessage("a", [], 1, true), ReleaseMessage("a")]

  lemma FitFirst(name: string)
    ensures Fit([], 1, Entry(name, 1), true).0 == [Entry(name, 1)] && Fit([], 1, Entry(name, 1), true).1 == []
  {
    assert [] + [Entry(name, 1)] == [Entry(name, 1)];
  }

  lemma FitSwaps(first: string, name: string)
    requires first != name
    ensures var r := Fit([Entry(first, 1)], 1, Entry(name, 1), true); r.0 == [Entry(name, 1)] && r.1 == [first]
  {
    FitFirst(name);
    assert [Entry(first, 1)][1..] == [];
    assert Used([Entry(first, 1)]) == 1;
    assert [first] + [] == [first];
  }

  function Cached(capacity: nat, ms: seq<Message>): seq<Entry>
  {
    match Run(capacity, ms) case Some(s) => s.lru case None => []
  }

  lemma CacheStep(capacity: nat, tops: set<string>, ms: seq<Message>, k: nat)
    requires WellUsed(capacity, tops, ms) && k < |ms|
    ensures match ms[k]
            case ReserveMessage(name, _, size, first) =>
              && size <= capacity
              && var fit := Fit(Cached(capacity, ms[..k]), capacity, Entry(name, size), first);
                 && Cached(capacity, ms[..k + 1]) == fit.0
                 && PushedOut(capacity, ms[..k + 1]) == PushedOut(capacity, ms[..k]) + AsSet(fit.1)
            case ReleaseMessage(_) => Cached(capacity, ms[..k + 1]) == Cached(capacity, ms[..k])
  {
    assert ms[..k + 1][..k] == ms[..k];
    assert MessageOk(capacity, tops, ms, k);
    PrefixWellUsed(capacity, tops, ms, k);
    PrefixWellUsed(capacity, tops, ms, k + 1);
    RunGood(capacity, tops, ms[..k]);
    RunGood(capacity, tops, ms[..k + 1]);
  }

  lemma OutstandingStep(ms: seq<Message>, k: nat, name: string)
    requires k < |ms|
    ensures Outstanding(ms[..k + 1], name) ==
            Outstanding(ms[..k], name) + if ms[k].name != name then 0 else if ms[k].ReserveMessage? then 1 else -1
  {
    assert ms[..k + 1][..k] == ms[..k];
  }

  lemma ReturnsCount()
    ensures Outstanding(A_RETURNS[..1], "a") == 1 && Outstanding(A_RETURNS[..4], "a") == 1
  {
    OutstandingStep(A_RETURNS, 0, "a");
    OutstandingStep(A_RETURNS, 1, "a");
    OutstandingStep(A_RETURNS, 2, "a");
    OutstandingStep(A_RETURNS, 3, "a");
  }

  lemma ReturnsUsed()
    ensures WellUsed(1, {"a", "b"}, A_RETURNS)
  {
    ReturnsCount();
  }

  /** With room for one table, reserving another pushes out the cached one. */
  lemma SwapStep(tops: set<string>, ms: seq<Message>, k: nat, first: string, name: string)
    requires WellUsed(1, tops, ms) && k < |ms| && first != name
    requires Cached(1, ms[..k]) == [Entry(first, 1)] && ms[k] == ReserveMessage(name, [], 1, true)
    ensures Cached(1, ms[..k + 1]) == [Entry(name, 1)]
    ensures PushedOut(1, ms[..k + 1]) == PushedOut(1, ms[..k]) + {first}
  {
    CacheStep(1, tops, ms, k);
    FitSwaps(first, name);
    assert AsSet([first]) == {first};
  }

  lemma ReturnsFirst()
    ensures Cached(1, A_RETURNS[..2]) == [Entry("a", 1)]
  {
    ReturnsUsed();
    FitFirst("a");
    CacheStep(1, {"a", "b"}, A_RETURNS, 0);
    CacheStep(1, {"a", "b"}, A_RETURNS, 1);
  }

  /** After four messages "a" is cached and was pushed out. */
  lemma ReturnsCached()
    ensures Cached(1, A_RETURNS[..4]) == [Entry("a", 1)] && "a" in PushedOut(1, A_RETURNS[..4])
  {
    ReturnsUsed();
    ReturnsFirst();
    SwapStep({"a", "b"}, A_RETURNS, 2, "a", "b");
    SwapStep({"a", "b"}, A_RETURNS, 3, "b", "a");
  }

  lemma ReturnsDropped()
    ensures WellUsed(1, {"a", "b"}, A_RETURNS)
    ensures "a" in DroppedBy(1, A_RETURNS, 4) && "a" in Named(Cached(1, A_RETURNS[..5]))
  {
    ReturnsUsed();
    ReturnsCached();
    ReturnsCount();
    assert Entry("a", 1) in Cached(1, A_RETURNS[..4]);
    CacheStep(1, {"a", "b"}, A_RETURNS, 4);
    CachedTablesDropped(1, {"a", "b"}, A_RETURNS, 4, "a");
  }

  // ---------------------------------------------------------------- the actor

  lemma DroppableStep(res: map<string, nat>, queue: seq<string>, k: nat)
    requires k < |queue|
    ensures Droppable(res, queue[..k + 1])
            == Droppable(res, queue[..k]) + if Count(res, queue[k]) == 0 then [queue[k]] else []
  {
    assert queue[..k + 1] == queue[..k] + [queue[k]];
    FilterStep(queue[..k], queue[k], (n: string) => Count(res, n) == 0);
  }

  lemma DropMore(res: map<string, nat>, names: seq<string>, x: string)
    ensures DropNames(res, names) - {x} == DropNames(res, names + [x])
  {
  }

  /** `gone` was pushed out of `start` so far, and `now` is left. */
  ghost predicate Fitting(start: seq<Entry>, gone: seq<string>, now: seq<Entry>, capacity: nat, e: Entry,
                          occupiedFirst: bool)
  {
    && e.size <= capacity
    && Fit(start, capacity, e, occupiedFirst).0 == Fit(now, capacity, e, occupiedFirst).0
    && Fit(start, capacity, e, occupiedFirst).1 == gone + Fit(now, capacity, e, occupiedFirst).1
  }

  lemma FittingStep(start: seq<Entry>, gone: seq<string>, now: seq<Entry>, capacity: nat, e: Entry, occupiedFirst: bool)
    requires Fitting(start, gone, now, capacity, e, occupiedFirst)
    ensures match TryInsert(now, capacity, e, occupiedFirst)
            case Inserted =>
              Fit(start, capacity, e, occupiedFirst).0 == now + [e] && Fit(start, capacity, e, occupiedFirst).1 == gone
            case Occupied =>
              && |RemoveName(now, e.name)| < |now|
              && Fitting(start, gone, RemoveName(now, e.name), capacity, e, occupiedFirst)
            case WouldEject => |now| > 0 && Fitting(start, gone + [now[0].name], now[1..], capacity, e, occupiedFirst)
            case TooLarge => false
  {
    match TryInsert(now, capacity, e, occupiedFirst)
    case Inserted => assert gone + [] == gone;
    case Occupied => RemoveShrinks(now, e.name);
    case WouldEject => AppendAssociates(gone, [now[0].name], Fit(now[1..], capacity, e, occupiedFirst).1);
  }

  class CacheTrackerActor {
    const capacity: nat
    var lru: seq<Entry>
    var related: map<string, seq<string>>
    var reservations: map<string, nat>
    var topLevelToDelete: seq<string>

    ghost function State(): Actor
      reads this
    {
      Actor(lru, related, reservations, topLevelToDelete)
    }

    constructor (capacity: nat)
      ensures this.capacity == capacity && State() == Actor([], map[], map[], [])
    {
      this.capacity := capacity;
      lru, related, reservations, topLevelToDelete := [], map[], map[], [];
    }

    method IncrementReservation(name: string)
      modifies this`reservations
      ensures reservations == old(reservations)[name := Count(old(reservations), name) + 1]
    {
      if name in reservations {
        reservations := reservations[name := reservations[name] + 1];
      } else {
        reservations := reservations[name := 1];
      }
    }

    /** The retry loop: each failed attempt makes the LRU smaller, and it is never empty when a table must go. */
    method MakeRoom(name: string, size: nat, occupiedFirst: bool)
      requires size <= capacity
      modifies this`lru, this`topLevelToDelete
      ensures var fit := Fit(old(lru), capacity, Entry(name, size), occupiedFirst);
              lru == fit.0 && topLevelToDelete == old(topLevelToDelete) + fit.1
    {
      var e := Entry(name, size);
      ghost var gone: seq<string> := [];
      assert [] + Fit(lru, capacity, e, occupiedFirst).1 == Fit(lru, capacity, e, occupiedFirst).1;
      while true
        invariant topLevelToDelete == old(topLevelToDelete) + gone
        invariant Fitting(old(lru), gone, lru, capacity, e, occupiedFirst)
        decreases |lru|
      {
        FittingStep(old(lru), gone, lru, capacity, e, occupiedFirst);
        match TryInsert(lru, capacity, e, occupiedFirst) {
          case Inserted =>
            lru := lru + [e];
            return;
          case Occupied =>
            lru := RemoveName(lru, name);
          case WouldEject =>
            var oldest := lru[0].name;
            AppendAssociates(old(topLevelToDelete), gone, [oldest]);
            topLevelToDelete := topLevelToDelete + [oldest];
            gone := gone + [oldest];
            lru := lru[1..];
        }
      }
    }

    method AddRelated(name: string, more: seq<string>)
      modifies this`related
      ensures related
              == old(related)[name := if name in old(related) then MergeNames(old(related)[name], more) else more]
    {
      if name !in related {
        related := related[name := more];
        return;
      }
      var names := related[name];
      var k := 0;
      while k < |more|
        invariant k <= |more| && names == MergeNames(related[name], more[..k]) && related == old(related)
      {
        assert more[..k + 1][..k] == more[..k];
        if more[k] !in names { names := names + [more[k]]; }
        k := k + 1;
      }
      assert more[..k] == more;
      related := related[name := names];
    }

    /** The Reserve message; false where the source aborts. */
    method ReserveTable(name: string, more: seq<string>, size: nat, occupiedFirst: bool) returns (ok: bool)
      modifies this
      ensures ok <==> Reserve(old(State()), capacity, name, more, size, occupiedFirst).Some?
      ensures ok ==> State() == Reserve(old(State()), capacity, name, more, size, occupiedFirst).value
    {
      IncrementReservation(name);
      if size == 0 || size > capacity { return false; }
      MakeRoom(name, size, occupiedFirst);
      AddRelated(name, more);
      ok := true;
    }

    method Drop(name: string)
      modifies this`reservations
      ensures reservations == old(reservations) - {name}
    {
      reservations := reservations - {name};
    }

    /** Drops one table and everything related to it. */
    method DropWithRelated(name: string) returns (dropped: seq<string>)
      modifies this`reservations, this`related
      ensures dropped == [name] + RelatedTo(old(related), name)
      ensures reservations == DropNames(old(reservations), dropped) && related == old(related) - {name}
    {
      Drop(name);
      dropped := [name];
      var names := RelatedTo(related, name);
      var k := 0;
      while k < |names|
        invariant k <= |names| && related == old(related) && dropped == [name] + names[..k]
        invariant reservations == DropNames(old(reservations), dropped)
      {
        DropMore(old(reservations), dropped, names[k]);
        Drop(names[k]);
        dropped := dropped + [names[k]];
        k := k + 1;
      }
      related := related - {name};
    }

    /** The first loop of Release. */
    method FindDroppable() returns (toDelete: seq<string>)
      ensures toDelete == Droppable(reservations, topLevelToDelete)
    {
      toDelete := [];
      var k := 0;
      while k < |topLevelToDelete|
        invariant k <= |topLevelToDelete| && toDelete == Droppable(reservations, topLevelToDelete[..k])
      {
        DroppableStep(reservations, topLevelToDelete, k);
        if Count(reservations, topLevelToDelete[k]) == 0 { toDelete := toDelete + [topLevelToDelete[k]]; }
        k := k + 1;
      }
      assert topLevelToDelete[..k] == topLevelToDelete;
    }

    /** The second loop of Release. */
    method DropTables(toDelete: seq<string>) returns (dropped: seq<string>)
      modifies this`reservations, this`related
      ensures var d := DropAll(old(reservations), old(related), toDelete);
              reservations == d.0 && related == d.1 && dropped == d.2
    {
      dropped := [];
      var k := 0;
      while k < |toDelete|
        invariant k <= |toDelete|
        invariant var d := DropAll(old(reservations), old(related), toDelete[..k]);
                  reservations == d.0 && related == d.1 && dropped == d.2
      {
        assert toDelete[..k + 1][..k] == toDelete[..k];
        var gone := DropWithRelated(toDelete[k]);
        dropped := dropped + gone;
        k := k + 1;
      }
      assert toDelete[..k] == toDelete;
    }

    /** Both loops of Release, once the count is down. */
    method DropUnreserved() returns (dropped: seq<string>)
      modifies this`reservations, this`related, this`topLevelToDelete
      ensures State() == DropQueued(old(State())).0 && dropped == DropQueued(old(State())).1
    {
      var toDelete := FindDroppable();
      topLevelToDelete := Minus(topLevelToDelete, toDelete);
      dropped := DropTables(toDelete);
    }

    /** The Release message, with the tables it drops; false where the source aborts. */
    method ReleaseTable(name: string) returns (ok: bool, dropped: seq<string>)
      modifies this
      ensures ok <==> Release(old(State()), name).Some?
      ensures ok ==> State() == Release(old(State()), name).value.0 && dropped == Release(old(State()), name).value.1
    {
      if name !in reservations || reservations[name] == 0 { return false, []; }
      reservations := reservations[name := reservations[name] - 1];
      dropped := DropUnreserved();
      ok := true;
    }
  }
}
