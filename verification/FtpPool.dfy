// The idle pool of logged-in FTP sessions (internal/ftpstream/pool.go).
module FtpPool {
  import opened Sums
  import opened Wrappers

  type Key = string

  const MAX_IDLE := 8
  const MAX_PER_KEY := 2
  const TTL := 30_000_000_000

  // An idle session and when it was parked.
  datatype Idle = Idle(session: nat, since: int)

  // idle is ftpPoolIdle.
  datatype Pool = Pool(lists: map<Key, seq<Idle>>, idle: int)

  predicate Expired(e: Idle, now: int) {
    now - e.since >= TTL
  }

  ghost function Sizes(lists: map<Key, seq<Idle>>): (r: map<Key, nat>)
    ensures r.Keys == lists.Keys && forall k :: k in r ==> r[k] == |lists[k]|
  {
    map k | k in lists :: |lists[k]|
  }

  ghost function Total(lists: map<Key, seq<Idle>>): nat {
    Sum(Sizes(lists), lists.Keys)
  }

  predicate InOrder(es: seq<Idle>) {
    forall i, j :: 0 <= i < j < |es| ==> es[i].since <= es[j].since
  }

  // Everything parked so far was parked by clock.
  ghost predicate Inv(p: Pool, clock: int) {
    && p.idle == Total(p.lists) && p.idle <= MAX_IDLE
    && (forall k :: k in p.lists ==> 0 < |p.lists[k]| <= MAX_PER_KEY && InOrder(p.lists[k]))
    && (forall k :: k in p.lists ==> forall e :: e in p.lists[k] ==> e.since <= clock)
  }

  // ---------------------------------------------------------- map and count

  function ListOf(lists: map<Key, seq<Idle>>, key: Key): seq<Idle> {
    if key in lists then lists[key] else []
  }

  // ftpPool[key] = list, or delete when it is empty.
  function With(lists: map<Key, seq<Idle>>, key: Key, list: seq<Idle>): map<Key, seq<Idle>> {
    if list == [] then lists - {key} else lists[key := list]
  }

  lemma WithCounts(lists: map<Key, seq<Idle>>, key: Key, list: seq<Idle>)
    ensures Total(With(lists, key, list)) == Total(lists) - |ListOf(lists, key)| + |list|
  {
    var r := With(lists, key, list);
    var others := lists.Keys - {key};
    SumSame(Sizes(lists), Sizes(r), others);
    if key in lists {
      SumWithout(Sizes(lists), lists.Keys, key);
    } else {
      assert others == lists.Keys;
    }
    if list == [] {
      assert r.Keys == others;
    } else {
      SumWithout(Sizes(r), r.Keys, key);
      assert r.Keys - {key} == others;
    }
  }

  // ------------------------------------------------------------ operations

  lemma LastInOrder(es: seq<Idle>)
    requires es != [] && InOrder(es)
    ensures var init, last := es[..|es| - 1], es[|es| - 1];
      es == init + [last] && InOrder(init) && forall e :: e in es <==> e in init || e == last
    ensures forall e :: e in es ==> e.since <= es[|es| - 1].since
  {
  }

  lemma OneMore(es: seq<Idle>, e: Idle)
    requires InOrder(es) && forall d :: d in es ==> d.since <= e.since
    ensures InOrder(es + [e])
  {
  }

  // ftpPoolGet: the list is popped from its new end until an unexpired session.
  function Popped(es: seq<Idle>, now: int): (r: (seq<Idle>, Option<Idle>, seq<Idle>))
  {
    if es == [] then ([], None, [])
    else
      var last := es[|es| - 1];
      if Expired(last, now) then
        var r := Popped(es[..|es| - 1], now);
        (r.0, r.1, [last] + r.2)
      else (es[..|es| - 1], Some(last), [])
  }

  function Got(p: Pool, key: Key, now: int): Pool {
    var list := ListOf(p.lists, key);
    var rest := Popped(list, now).0;
    Pool(With(p.lists, key, rest), p.idle - |list| + |rest|)
  }

  // Get returns the key's newest session if it has not expired; then nothing is
  // discarded. Otherwise every session of the key has expired and is discarded.
  lemma {:induction false} NewestOrNone(es: seq<Idle>, now: int)
    requires InOrder(es)
    ensures var (rest, got, expired) := Popped(es, now);
      && (got.Some? <==> exists e :: e in es && !Expired(e, now))
      && (got.Some? ==> expired == [] && es == rest + [got.value] && forall e :: e in es ==> e.since <= got.value.since)
      && (got.None? ==> rest == [] && |expired| == |es| && forall e :: e in es <==> e in expired)
  {
    hide InOrder;
    if es != [] {
      var init, last := es[..|es| - 1], es[|es| - 1];
      LastInOrder(es);
      if Expired(last, now) {
        NewestOrNone(init, now);
      }
    }
  }

  function Unexpired(es: seq<Idle>, now: int): (r: seq<Idle>)
    ensures |r| <= |es| && forall e :: e in r <==> e in es && !Expired(e, now)
  {
    if es == [] then []
    else
      var init, last := es[..|es| - 1], es[|es| - 1];
      assert es == init + [last];
      if Expired(last, now) then Unexpired(init, now) else Unexpired(init, now) + [last]
  }

  lemma {:induction false} UnexpiredInOrder(es: seq<Idle>, now: int)
    requires InOrder(es)
    ensures InOrder(Unexpired(es, now))
  {
    hide InOrder;
    if es == [] {
      assert Unexpired(es, now) == es;
    } else {
      var init, last := es[..|es| - 1], es[|es| - 1];
      LastInOrder(es);
      UnexpiredInOrder(init, now);
      OneMore(Unexpired(init, now), last);
    }
  }

  // ftpPoolPut once room is made: without the oldest of victim's list, if any.
  function Parked(p: Pool, key: Key, session: nat, now: int, victim: Option<Key>): Pool
    requires victim.Some? ==> victim.value in p.lists && p.lists[victim.value] != []
  {
    var lists := if victim.Some? then With(p.lists, victim.value, p.lists[victim.value][1..]) else p.lists;
    Pool(With(lists, key, ListOf(lists, key) + [Idle(session, now)]), if victim.Some? then p.idle else p.idle + 1)
  }

  // Whose oldest session a Put drops: the key's own when the key is full, one
  // that is oldest in the whole pool when the pool is full, else none.
  ghost predicate RightVictim(p: Pool, key: Key, victim: Option<Key>) {
    if |ListOf(p.lists, key)| >= MAX_PER_KEY then victim == Some(key)
    else if p.idle >= MAX_IDLE then
      && victim.Some? && victim.value in p.lists && p.lists[victim.value] != []
      && forall k :: k in p.lists && p.lists[k] != [] ==> p.lists[victim.value][0].since <= p.lists[k][0].since
    else victim == None
  }

  // ---------------------------------------------------------------- invariant

  lemma ListKept(p: Pool, clock: int, key: Key, list: seq<Idle>, idle: int, now: int)
    requires Inv(p, clock) && clock <= now && |list| <= MAX_PER_KEY && InOrder(list)
    requires forall e :: e in list ==> e.since <= now
    requires idle == p.idle - |ListOf(p.lists, key)| + |list| <= MAX_IDLE
    ensures Inv(Pool(With(p.lists, key, list), idle), now)
  {
    hide Total, InOrder;
    WithCounts(p.lists, key, list);
  }

  // Whatever time Get reads: it may have read the clock before the last Put.
  lemma GetKeeps(p: Pool, clock: int, key: Key, now: int)
    requires Inv(p, clock)
    ensures Inv(Got(p, key, now), clock)
  {
    hide Total;
    var list := ListOf(p.lists, key);
    NewestOrNone(list, now);
    var rest := Popped(list, now).0;
    assert forall e :: e in rest ==> e in list;
    ListKept(p, clock, key, rest, p.idle - |list| + |rest|, clock);
  }

  lemma DropKeeps(p: Pool, clock: int, victim: Key)
    requires Inv(p, clock) && victim in p.lists
    ensures Inv(Pool(With(p.lists, victim, p.lists[victim][1..]), p.idle - 1), clock)
  {
    hide Total;
    ListKept(p, clock, victim, p.lists[victim][1..], p.idle - 1, clock);
  }

  lemma Ordered(p: Pool, clock: int, key: Key)
    requires Inv(p, clock)
    ensures InOrder(ListOf(p.lists, key)) && forall e :: e in ListOf(p.lists, key) ==> e.since <= clock
  {
    hide Total;
  }

  lemma PutKeeps(p: Pool, clock: int, key: Key, session: nat, now: int, victim: Option<Key>)
    requires Inv(p, clock) && clock <= now && RightVictim(p, key, victim)
    ensures Inv(Parked(p, key, session, now, victim), now)
  {
    hide Total, InOrder;
    var q := if victim.Some? then Pool(With(p.lists, victim.value, p.lists[victim.value][1..]), p.idle - 1) else p;
    if victim.Some? {
      DropKeeps(p, clock, victim.value);
    }
    Ordered(q, clock, key);
    OneMore(ListOf(q.lists, key), Idle(session, now));
    ListKept(q, clock, key, ListOf(q.lists, key) + [Idle(session, now)], q.idle + 1, now);
  }

  // ----------------------------------------------------- the code, in place

  class Sessions {
    var lists: map<Key, seq<Idle>>
    var idle: int

    constructor ()
      ensures View() == Pool(map[], 0)
    {
      lists, idle := map[], 0;
    }

    function View(): Pool
      reads this
    {
      Pool(lists, idle)
    }

    // ftpPoolGet.
    method Get(key: Key, now: int, ghost clock: int) returns (got: Option<Idle>, expired: seq<Idle>)
      requires Inv(View(), clock)
      modifies this
      ensures Inv(View(), clock)
      ensures View() == Got(old(View()), key, now)
      ensures got == Popped(ListOf(old(lists), key), now).1
      ensures expired == Popped(ListOf(old(lists), key), now).2
      ensures got.Some? ==> got.value in ListOf(old(lists), key) && now - got.value.since < TTL
      ensures forall e :: e in expired ==> now - e.since >= TTL
    {
      hide Inv;
      GetKeeps(View(), clock, key, now);
      got, expired := None, [];
      var list := if key in lists then lists[key] else [];
      ghost var all := list;
      while |list| > 0
        invariant lists == old(lists) && idle == old(idle) - |all| + |list|
        invariant Popped(all, now).0 == Popped(list, now).0 && Popped(all, now).1 == Popped(list, now).1
        invariant Popped(all, now).2 == expired + Popped(list, now).2
        invariant (forall e :: e in list ==> e in all) && forall e :: e in expired ==> now - e.since >= TTL
      {
        var s := list[|list| - 1];
        list := list[..|list| - 1];
        idle := idle - 1;
        if now - s.since >= TTL {
          expired := expired + [s];
          continue;
        }
        got := Some(s);
        break;
      }
      if |list| == 0 {
        lists := lists - {key};
      } else {
        lists := lists[key := list];
      }
    }

    // The scan for the key whose first session is oldest.
    method OldestKey() returns (key: Option<Key>)
      ensures key.None? <==> forall k :: k in lists ==> lists[k] == []
      ensures key.Some? ==>
        && key.value in lists && lists[key.value] != []
        && forall k :: k in lists && lists[k] != [] ==> lists[key.value][0].since <= lists[k][0].since
    {
      key := None;
      var todo := lists.Keys;
      while todo != {}
        invariant todo <= lists.Keys
        invariant key.None? <==> forall k :: k in lists && k !in todo ==> lists[k] == []
        invariant key.Some? ==>
          && key.value in lists && lists[key.value] != []
          && forall k :: k in lists && k !in todo && lists[k] != [] ==> lists[key.value][0].since <= lists[k][0].since
      {
        var k :| k in todo;
        todo := todo - {k};
        if |lists[k]| > 0 && (key.None? || lists[k][0].since < lists[key.value][0].since) {
          key := Some(k);
        }
      }
    }

    method DropOldest(key: Key) returns (s: Idle)
      requires key in lists && lists[key] != []
      modifies this
      ensures View() == Pool(With(old(lists), key, old(lists)[key][1..]), old(idle) - 1) && s == old(lists)[key][0]
    {
      s := lists[key][0];
      if |lists[key]| == 1 {
        lists := lists - {key};
      } else {
        lists := lists[key := lists[key][1..]];
      }
      idle := idle - 1;
    }

    // ftpPoolPut: at most one session makes room.
    method Put(key: Key, session: nat, now: int, ghost clock: int)
      returns (evicted: seq<Idle>, ghost victim: Option<Key>)
      requires Inv(View(), clock) && clock <= now
      modifies this
      ensures RightVictim(old(View()), key, victim) && View() == Parked(old(View()), key, session, now, victim)
      ensures evicted == if victim.Some? then [old(lists)[victim.value][0]] else []
      ensures Inv(View(), now)
    {
      hide Total, InOrder, Inv;
      BoundedLists(View(), clock);
      evicted, victim := [], None;
      if key in lists && |lists[key]| >= MAX_PER_KEY {
        var s := DropOldest(key);
        evicted, victim := [s], Some(key);
      }
      while idle >= MAX_IDLE
        invariant victim.None? ==> View() == old(View()) && evicted == []
        invariant RightVictim(old(View()), key, victim) || victim.None?
        invariant victim.None? ==> |ListOf(lists, key)| < MAX_PER_KEY
        invariant victim.Some? ==>
          && victim.value in old(lists) && old(lists)[victim.value] != []
          && View() == Pool(With(old(lists), victim.value, old(lists)[victim.value][1..]), old(idle) - 1)
          && evicted == [old(lists)[victim.value][0]]
        decreases idle
      {
        var oldest := OldestKey();
        if oldest.None? {
          break;
        }
        var s := DropOldest(oldest.value);
        evicted, victim := evicted + [s], oldest;
      }
      PutKeeps(old(View()), clock, key, session, now, victim);
      lists := lists[key := (if key in lists then lists[key] else []) + [Idle(session, now)]];
      idle := idle + 1;
    }

    // ftpPoolEvict: exactly the expired sessions go, and every list keeps its
    // order.
    method Evict(now: int, ghost clock: int)
      requires Inv(View(), clock)
      modifies this
      ensures Inv(View(), clock)
      ensures forall k :: ListOf(lists, k) == Unexpired(ListOf(old(lists), k), now)
      ensures forall k, e :: e in ListOf(lists, k) <==> e in ListOf(old(lists), k) && now - e.since < TTL
    {
      hide Total, InOrder, Inv, Unexpired;
      NothingOfNothing(now);
      var todo := lists.Keys;
      while todo != {}
        invariant todo <= old(lists).Keys && Inv(View(), clock)
        invariant forall k ::
          ListOf(lists, k) == if k in todo then ListOf(old(lists), k) else Unexpired(ListOf(old(lists), k), now)
      {
        var k :| k in todo;
        todo := todo - {k};
        var list := if k in lists then lists[k] else [];
        var keep := Kept(list, now);
        SweepKeeps(View(), clock, k, now);
        idle := idle - (|list| - |keep|);
        if |keep| == 0 {
          lists := lists - {k};
        } else {
          lists := lists[k := keep];
        }
      }
    }
  }

  // The inner loop of ftpPoolEvict.
  method Kept(list: seq<Idle>, now: int) returns (keep: seq<Idle>)
    ensures keep == Unexpired(list, now)
  {
    keep := [];
    for i := 0 to |list|
      invariant keep == Unexpired(list[..i], now)
    {
      assert list[..i + 1][..i] == list[..i];
      if now - list[i].since < TTL {
        keep := keep + [list[i]];
      }
    }
    assert list[..|list|] == list;
  }

  lemma NothingOfNothing(now: int)
    ensures Unexpired([], now) == []
  {
  }

  lemma SweepKeeps(p: Pool, clock: int, key: Key, now: int)
    requires Inv(p, clock)
    ensures var list := ListOf(p.lists, key); var keep := Unexpired(list, now);
      Inv(Pool(With(p.lists, key, keep), p.idle - (|list| - |keep|)), clock)
  {
    hide Total;
    var list := ListOf(p.lists, key);
    var keep := Unexpired(list, now);
    UnexpiredInOrder(list, now);
    ListKept(p, clock, key, keep, p.idle - (|list| - |keep|), clock);
  }

  // A full pool holds a session that can go; no list is empty.
  lemma BoundedLists(p: Pool, clock: int)
    requires Inv(p, clock)
    ensures p.idle <= MAX_IDLE
    ensures forall k :: k in p.lists ==> p.lists[k] != []
    ensures p.idle > 0 ==> p.lists != map[]
  {
    if p.lists == map[] {
      assert p.lists.Keys == {};
    }
  }

  // --------------------------------------------------------------------- runs

  datatype Op =
    | Get(key: Key, now: int)
    | Put(key: Key, session: nat, now: int, victim: Option<Key>)
    | Sweep(key: Key, now: int)

  // Only Put reads the clock under the pool's lock, so only its times increase;
  // Get and the janitor may bring any time.
  ghost predicate Enabled(p: Pool, clock: int, op: Op) {
    op.Put? ==> op.now >= clock && RightVictim(p, op.key, op.victim)
  }

  function Later(clock: int, op: Op): int {
    if op.Put? then op.now else clock
  }

  ghost function Apply(p: Pool, clock: int, op: Op): Pool
    requires Enabled(p, clock, op)
  {
    match op
    case Get(key, now) => Got(p, key, now)
    case Put(key, session, now, victim) => Parked(p, key, session, now, victim)
    case Sweep(key, now) =>
      var list := ListOf(p.lists, key);
      var keep := Unexpired(list, now);
      Pool(With(p.lists, key, keep), p.idle - (|list| - |keep|))
  }

  ghost predicate Runs(p: Pool, clock: int, ops: seq<Op>, q: Pool)
    decreases |ops|
  {
    if ops == [] then q == p
    else Enabled(p, clock, ops[0]) && Runs(Apply(p, clock, ops[0]), Later(clock, ops[0]), ops[1..], q)
  }

  // After any sequence of operations, whatever times Get and the janitor bring,
  // the count is the number of parked sessions, both caps hold, no list is empty,
  // and each is in the order of parking.
  lemma {:induction false} EveryRunIsBounded(p: Pool, clock: int, ops: seq<Op>, q: Pool)
    requires Inv(p, clock) && Runs(p, clock, ops, q)
    ensures q.idle == Total(q.lists) <= MAX_IDLE
    ensures forall k :: k in q.lists ==> 0 < |q.lists[k]| <= MAX_PER_KEY && InOrder(q.lists[k])
    decreases |ops|
  {
    hide Total, InOrder, RightVictim;
    if ops != [] {
      var op := ops[0];
      match op {
        case Get(key, now) => GetKeeps(p, clock, key, now);
        case Put(key, session, now, victim) => PutKeeps(p, clock, key, session, now, victim);
        case Sweep(key, now) => SweepKeeps(p, clock, key, now);
      }
      EveryRunIsBounded(Apply(p, clock, op), Later(clock, op), ops[1..], q);
    }
  }

  lemma PushThenPop(lists: map<Key, seq<Idle>>, key: Key, e: Idle, now: int)
    requires !Expired(e, now) && (key in lists ==> lists[key] != [])
    ensures var list := ListOf(lists, key); var pushed := With(lists, key, list + [e]);
      && ListOf(pushed, key) == list + [e]
      && Popped(ListOf(pushed, key), now) == (list, Some(e), [])
      && With(pushed, key, list) == lists
  {
    var list := ListOf(lists, key);
    assert (list + [e])[..|list|] == list;
    assert With(With(lists, key, list + [e]), key, list) == lists;
  }

  // A session put and asked for again within the time to live comes back, and
  // the pool is then as Put found it, less what it dropped.
  lemma ParkedComesBack(p: Pool, clock: int, key: Key, session: nat, now: int, later: int, victim: Option<Key>)
    requires Inv(p, clock) && clock <= now && later < now + TTL && RightVictim(p, key, victim)
    ensures var q := Parked(p, key, session, now, victim);
      && Popped(ListOf(q.lists, key), later).1 == Some(Idle(session, now))
      && Got(q, key, later) ==
           if victim.Some? then Pool(With(p.lists, victim.value, p.lists[victim.value][1..]), p.idle - 1) else p
  {
    hide Total, InOrder, Popped, With;
    var before := p.lists;
    if victim.Some? {
      before := With(p.lists, victim.value, p.lists[victim.value][1..]);
      DropKeeps(p, clock, victim.value);
    }
    PushThenPop(before, key, Idle(session, now), later);
  }
}
