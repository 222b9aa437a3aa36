/** Which tables the reservation actor gives up: Reserve pushes out the least recently used ones, as few as make
    room, and Release drops the queued tables that nobody holds, with what is related to them. */
module ReservationDrops {
  import opened Prelude
  import opened Reservations

  function NamesOf(lru: seq<Entry>): seq<string> { seq(|lru|, i requires 0 <= i < |lru| => lru[i].name) }

  // ------------------------------------------------------------- what Reserve pushes out

  lemma {:induction false} UsedTail(lru: seq<Entry>, k: nat)
    requires k <= |lru|
    ensures Used(lru[k..]) <= Used(lru)
  {
    if k > 0 {
      UsedTail(lru[1..], k - 1);
      assert lru[1..][k - 1..] == lru[k..];
    }
  }

  lemma {:induction false} UsedWithout(lru: seq<Entry>, name: string)
    ensures Used(RemoveName(lru, name)) <= Used(lru)
  {
    if |lru| != 0 {
      var m := |lru| - 1;
      UsedWithout(lru[..m], name);
      assert lru == lru[..m] + [lru[m]];
      UsedConcat(lru[..m], [lru[m]]);
      UsedConcat(RemoveName(lru[..m], name), [lru[m]]);
    }
  }

  lemma {:induction false} RemovedIsOut(lru: seq<Entry>, name: string)
    ensures !InLru(RemoveName(lru, name), name)
    ensures !InLru(lru, name) ==> RemoveName(lru, name) == lru
  {
    var r := RemoveName(lru, name);
    forall i | 0 <= i < |r|
      ensures r[i].name != name
    {
      assert r[i] in r;
    }
    if !InLru(lru, name) { FilterAll(lru, (e: Entry) => e.name != name); }
  }

  /** The `k` oldest of a list go: with one fewer there is no room, and with these there is. */
  predicate OldestGo(l: seq<Entry>, k: nat, capacity: nat, e: Entry, r: (seq<Entry>, seq<string>)) {
    && k <= |l| && Used(l[k..]) + e.size <= capacity && (k > 0 ==> Used(l[k - 1..]) + e.size > capacity)
    && r.0 == RemoveName(l[k..], e.name) + [e] && r.1 == NamesOf(l[..k])
  }

  lemma OneMoreGoes(l: seq<Entry>, k: nat, capacity: nat, e: Entry, r: (seq<Entry>, seq<string>))
    requires |l| > 0 && Used(l) + e.size > capacity && OldestGo(l[1..], k, capacity, e, r)
    ensures OldestGo(l, k + 1, capacity, e, (r.0, [l[0].name] + r.1))
  {
    DropOne(l, k);
    if k > 0 { DropOne(l, k - 1); } else { assert l[0..] == l; }
    FirstNames(l, k);
  }

  lemma DropOne(l: seq<Entry>, k: nat)
    requires k < |l|
    ensures l[1..][k..] == l[k + 1..]
  {
  }

  lemma FirstNames(l: seq<Entry>, k: nat)
    requires k < |l|
    ensures NamesOf(l[..k + 1]) == [l[0].name] + NamesOf(l[1..][..k])
  {
  }

  lemma NoneGoes(l: seq<Entry>, capacity: nat, e: Entry)
    requires Used(l) + e.size <= capacity
    ensures OldestGo(l, 0, capacity, e, (RemoveName(l, e.name) + [e], []))
  {
    assert l[0..] == l && l[..0] == [];
  }

  /** Without the table's own entry, the oldest tables are pushed out, as few as make room. */
  lemma {:induction false} FitAbsent(lru: seq<Entry>, capacity: nat, e: Entry, occupiedFirst: bool) returns (k: nat)
    requires e.size <= capacity && !InLru(lru, e.name)
    ensures OldestGo(lru, k, capacity, e, Fit(lru, capacity, e, occupiedFirst))
    decreases |lru|
  {
    if Used(lru) + e.size > capacity {
      k := FitAbsent(lru[1..], capacity, e, occupiedFirst);
      OneMoreGoes(lru, k, capacity, e, Fit(lru[1..], capacity, e, occupiedFirst));
      k := k + 1;
    } else {
      k := 0;
      RemovedIsOut(lru, e.name);
      NoneGoes(lru, capacity, e);
    }
  }

  lemma FitOccupied(lru: seq<Entry>, capacity: nat, e: Entry, occupiedFirst: bool)
    requires e.size <= capacity && InLru(lru, e.name) && Used(lru) + e.size <= capacity
    ensures Fit(lru, capacity, e, occupiedFirst) == (RemoveName(lru, e.name) + [e], [])
  {
    UsedWithout(lru, e.name);
    RemovedIsOut(lru, e.name);
  }

  /** If the cache looks for room first, the oldest tables of the whole list are pushed out, its own among them. */
  lemma {:induction false} FitRoomFirst(lru: seq<Entry>, capacity: nat, e: Entry) returns (k: nat)
    requires e.size <= capacity
    ensures OldestGo(lru, k, capacity, e, Fit(lru, capacity, e, false))
    decreases |lru|
  {
    if Used(lru) + e.size > capacity {
      k := FitRoomFirst(lru[1..], capacity, e);
      OneMoreGoes(lru, k, capacity, e, Fit(lru[1..], capacity, e, false));
      k := k + 1;
    } else {
      k := 0;
      RemovedIsOut(lru, e.name);
      NoneGoes(lru, capacity, e);
      if InLru(lru, e.name) { FitOccupied(lru, capacity, e, false); }
    }
  }

  /** Reserve pushes out the least recently used tables, as few as make room: of the list without the table's own
      entry if that is noticed first, and of the whole list otherwise. */
  lemma FitPushesOldest(lru: seq<Entry>, capacity: nat, e: Entry, occupiedFirst: bool) returns (k: nat)
    requires e.size <= capacity
    ensures OldestGo(if occupiedFirst then RemoveName(lru, e.name) else lru, k, capacity, e,
                     Fit(lru, capacity, e, occupiedFirst))
  {
    if occupiedFirst {
      RemovedIsOut(lru, e.name);
      k := FitAbsent(RemoveName(lru, e.name), capacity, e, true);
    } else {
      k := FitRoomFirst(lru, capacity, e);
    }
  }

  // ----------------------------------------------------------------- what is related

  lemma {:induction false} MergedNames(names: seq<string>, more: seq<string>, x: string)
    ensures x in MergeNames(names, more) <==> x in names || x in more
    ensures names <= MergeNames(names, more)
  {
    if |more| != 0 {
      MergedNames(names, more[..|more| - 1], x);
      assert x in more <==> x in more[..|more| - 1] || x == more[|more| - 1];
    }
  }

  /** Reserve counts one more reservation, and notes the related tables in addition to those it knew. */
  lemma ReserveNotes(s: Actor, capacity: nat, name: string, more: seq<string>, size: nat, occupiedFirst: bool,
                     n: string, x: string)
    ensures Reserve(s, capacity, name, more, size, occupiedFirst).Some? <==> 0 < size <= capacity
    ensures 0 < size <= capacity ==>
              var t := Reserve(s, capacity, name, more, size, occupiedFirst).value;
              && Count(t.reservations, n) == Count(s.reservations, n) + (if n == name then 1 else 0)
              && (x in RelatedTo(t.related, n) <==> x in RelatedTo(s.related, n) || (n == name && x in more))
  {
    if name in s.related { MergedNames(s.related[name], more, x); }
  }

  // --------------------------------------------------------------- what Release drops

  lemma {:induction false} DropAllDrops(res: map<string, nat>, related: map<string, seq<string>>, names: seq<string>,
                                        x: string)
    ensures var d := DropAll(res, related, names);
            && (x in d.2 <==> exists n :: n in names && (x == n || x in RelatedTo(related, n)))
            && (forall n :: n in d.1 <==> n in related && n !in names)
            && (forall n :: n in d.1 ==> d.1[n] == related[n])
            && (x in d.0 <==> x in res && x !in d.2)
  {
    if |names| != 0 {
      var m := |names| - 1;
      var d, n := DropAll(res, related, names[..m]), names[m];
      DropAllDrops(res, related, names[..m], x);
      assert forall y :: y in names <==> y in names[..m] || y == n;
      if n in names[..m] {
        assert RelatedTo(d.1, n) == [];
      } else {
        assert RelatedTo(d.1, n) == RelatedTo(related, n);
      }
    }
  }

  /** The table waits in the queue and nobody holds it once the reservation is given back. */
  predicate Unheld(s: Actor, name: string, n: string) {
    n in s.queue && Count(s.reservations, n) == if n == name then 1 else 0
  }

  /** Release drops exactly the queued tables that nobody holds any more, and the tables related to these; the others
      stay queued, and what was dropped has no entry left. */
  lemma ReleaseDrops(s: Actor, name: string, x: string)
    requires Count(s.reservations, name) > 0
    ensures Release(s, name).Some?
    ensures var r := Release(s, name).value;
            && (x in r.1 <==> exists n :: Unheld(s, name, n) && (x == n || x in RelatedTo(s.related, n)))
            && (x in r.0.queue <==> x in s.queue && !Unheld(s, name, x))
            && (x in r.0.related <==> x in s.related && !Unheld(s, name, x))
            && (x in r.0.reservations ==> x in s.reservations && x !in r.1) && r.0.lru == s.lru
  {
    var t := s.(reservations := s.reservations[name := s.reservations[name] - 1]);
    var gone := Droppable(t.reservations, t.queue);
    forall n
      ensures n in gone <==> Unheld(s, name, n)
    {
      QueueKept(t.reservations, t.queue, n);
    }
    QueueKept(t.reservations, t.queue, x);
    DropAllDrops(t.reservations, t.related, gone, x);
  }
}
