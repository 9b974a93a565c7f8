// archiveEnforceCaps of internal/api/archive.go: which idle sessions are dropped
// to bring the number of sessions and their bytes on disk under the caps.
module ArchiveCaps {
  import opened ArchiveSessions
  import opened Collections
  import opened Recency
  import opened Sums
  import opened Wrappers

  // What the scan under the lock finds: per session its pins, last access and
  // bytes on disk.
  datatype Table = Table(refs: map<Key, nat>, last: map<Key, int>, bytes: map<Key, nat>) {
    predicate Knows(ks: set<Key>) {
      ks <= refs.Keys && ks <= last.Keys && ks <= bytes.Keys
    }
  }

  datatype Caps = Caps(sessions: int, bytes: int)

  // Idle sessions other than the kept one.
  function Candidates(t: Table, live: set<Key>, keep: Option<Key>): (r: set<Key>)
    requires t.Knows(live)
    ensures r <= live
  {
    set k | k in live && Some(k) != keep && t.refs[k] == 0
  }

  // The eviction loop over the candidates left, with count sessions of total
  // bytes still there.
  function Victims(t: Table, ks: seq<Key>, count: int, total: int, reachable: bool, caps: Caps): (vs: seq<Key>)
    requires SetOf(ks) <= t.bytes.Keys
    ensures forall v :: v in vs ==> v in ks
  {
    var overCount := count > caps.sessions;
    if ks == [] || (!overCount && !(reachable && total > caps.bytes)) then []
    else if !overCount && t.bytes[ks[0]] == 0 then Victims(t, ks[1..], count, total, reachable, caps)
    else [ks[0]] + Victims(t, ks[1..], count - 1, total - t.bytes[ks[0]], reachable, caps)
  }

  ghost function BytesOf(t: Table, ks: seq<Key>): nat
    requires SetOf(ks) <= t.bytes.Keys
  {
    if ks == [] then 0 else t.bytes[ks[0]] + BytesOf(t, ks[1..])
  }

  lemma {:induction false} BytesAreSum(t: Table, ks: seq<Key>)
    requires SetOf(ks) <= t.bytes.Keys && Distinct(ks)
    ensures BytesOf(t, ks) == Sum(t.bytes, SetOf(ks))
  {
    if ks == [] {
      assert SetOf(ks) == {};
    } else {
      BytesAreSum(t, ks[1..]);
      assert SetOf(ks) == SetOf(ks[1..]) + {ks[0]};
      SumWith(t.bytes, SetOf(ks[1..]), ks[0]);
    }
  }

  // The byte cap is met if dropping every candidate can meet it; the session cap
  // is met or every candidate is dropped.
  lemma {:induction false} VictimsSuffice(t: Table, ks: seq<Key>, count: int, total: int, reachable: bool, caps: Caps)
    requires SetOf(ks) <= t.bytes.Keys
    ensures var vs := Victims(t, ks, count, total, reachable, caps);
      && |vs| <= |ks|
      && (count - |vs| <= caps.sessions || |vs| == |ks|)
      && (reachable && total - BytesOf(t, ks) <= caps.bytes ==> total - BytesOf(t, vs) <= caps.bytes)
  {
    if ks != [] {
      VictimsSuffice(t, ks[1..], count, total, reachable, caps);
      VictimsSuffice(t, ks[1..], count - 1, total - t.bytes[ks[0]], reachable, caps);
    }
  }

  // The i-th victim helps a cap that the ones before it leave exceeded.
  ghost predicate Helps(t: Table, vs: seq<Key>, i: nat, count: int, total: int, reachable: bool, caps: Caps)
    requires SetOf(vs) <= t.bytes.Keys && i < |vs|
  {
    assert SetOf(vs[..i]) <= SetOf(vs);
    || count - i > caps.sessions
    || (reachable && t.bytes[vs[i]] > 0 && total - BytesOf(t, vs[..i]) > caps.bytes)
  }

  lemma NoneNeeded(t: Table, ks: seq<Key>, count: int, total: int, reachable: bool, caps: Caps)
    requires SetOf(ks) <= t.bytes.Keys && count <= caps.sessions && total <= caps.bytes
    ensures Victims(t, ks, count, total, reachable, caps) == []
  {
  }

  ghost predicate AllHelp(t: Table, vs: seq<Key>, count: int, total: int, reachable: bool, caps: Caps)
    requires SetOf(vs) <= t.bytes.Keys
  {
    forall i :: 0 <= i < |vs| ==> Helps(t, vs, i, count, total, reachable, caps)
  }

  lemma {:induction false} VictimsHelp(t: Table, ks: seq<Key>, count: int, total: int, reachable: bool, caps: Caps,
                                       i: nat)
    requires SetOf(ks) <= t.bytes.Keys && i < |Victims(t, ks, count, total, reachable, caps)|
    ensures SetOf(Victims(t, ks, count, total, reachable, caps)) <= t.bytes.Keys
    ensures Helps(t, Victims(t, ks, count, total, reachable, caps), i, count, total, reachable, caps)
  {
    var vs := Victims(t, ks, count, total, reachable, caps);
    if count <= caps.sessions && t.bytes[ks[0]] == 0 {
      VictimsHelp(t, ks[1..], count, total, reachable, caps, i);
    } else if i > 0 {
      VictimsHelp(t, ks[1..], count - 1, total - t.bytes[ks[0]], reachable, caps, i - 1);
      assert vs[..i] == [ks[0]] + vs[1..][..i - 1];
    }
  }

  lemma {:induction false} VictimsDistinct(t: Table, ks: seq<Key>, count: int, total: int, reachable: bool, caps: Caps)
    requires SetOf(ks) <= t.bytes.Keys && Distinct(ks)
    ensures Distinct(Victims(t, ks, count, total, reachable, caps))
  {
    if ks != [] {
      var rest := ks[1..];
      assert forall i :: 0 <= i < |rest| ==> rest[i] == ks[i + 1] != ks[0];
      assert ks[0] !in rest && Distinct(rest);
      VictimsDistinct(t, rest, count, total, reachable, caps);
      VictimsDistinct(t, rest, count - 1, total - t.bytes[ks[0]], reachable, caps);
      InsertDistinct(Victims(t, rest, count - 1, total - t.bytes[ks[0]], reachable, caps), 0, ks[0]);
    }
  }

  // Under the session cap only sessions that hold bytes are taken.
  lemma {:induction false} VictimsHold(t: Table, ks: seq<Key>, count: int, total: int, reachable: bool, caps: Caps)
    requires SetOf(ks) <= t.bytes.Keys && count <= caps.sessions
    ensures forall v :: v in Victims(t, ks, count, total, reachable, caps) ==> t.bytes[v] > 0
  {
    if ks != [] {
      VictimsHold(t, ks[1..], count, total, reachable, caps);
      VictimsHold(t, ks[1..], count - 1, total - t.bytes[ks[0]], reachable, caps);
    }
  }

  lemma {:induction false} FirstPassedOver(t: Table, ks: seq<Key>, count: int, total: int, reachable: bool,
                                           caps: Caps, v: Key)
    requires SetOf(ks) <= t.bytes.Keys && ks != [] && v in ks[1..] && ks[0] !in ks[1..]
    requires var vs := Victims(t, ks, count, total, reachable, caps); v in vs && ks[0] !in vs
    ensures t.bytes[ks[0]] == 0 && t.bytes[v] > 0
  {
    VictimsHold(t, ks[1..], count, total, reachable, caps);
  }

  // A candidate is passed over for a later one only if it holds no bytes and the
  // later one does.
  lemma {:induction false} VictimsInOrder(t: Table, ks: seq<Key>, count: int, total: int, reachable: bool, caps: Caps,
                                          i: nat, j: nat)
    requires SetOf(ks) <= t.bytes.Keys && Distinct(ks) && i < j < |ks|
    requires var vs := Victims(t, ks, count, total, reachable, caps); ks[j] in vs && ks[i] !in vs
    ensures t.bytes[ks[i]] == 0 && t.bytes[ks[j]] > 0
  {
    var rest := ks[1..];
    Tail(ks);
    assert rest[j - 1] == ks[j];
    if i == 0 {
      FirstPassedOver(t, ks, count, total, reachable, caps, ks[j]);
    } else {
      assert rest[i - 1] == ks[i];
      var taken := !(count <= caps.sessions && t.bytes[ks[0]] == 0);
      var less, left := if taken then count - 1 else count, if taken then total - t.bytes[ks[0]] else total;
      assert ks[j] != ks[0];
      VictimsInOrder(t, rest, less, left, reachable, caps, i - 1, j - 1);
    }
  }

  lemma Tail(ks: seq<Key>)
    requires Distinct(ks) && ks != []
    ensures Distinct(ks[1..]) && ks[0] !in ks[1..] && SetOf(ks[1..]) <= SetOf(ks)
  {
    forall i | 0 <= i < |ks[1..]|
      ensures ks[1..][i] != ks[0]
    {
      assert ks[1..][i] == ks[i + 1];
    }
  }

  lemma CandidatesWith(t: Table, seen: set<Key>, k: Key, keep: Option<Key>)
    requires t.Knows(seen + {k}) && k !in seen
    ensures Candidates(t, seen + {k}, keep) ==
      if Some(k) != keep && t.refs[k] == 0 then Candidates(t, seen, keep) + {k} else Candidates(t, seen, keep)
  {
  }

  // The scan of archiveEnforceCaps under the lock.
  method Scan(t: Table, live: set<Key>, keep: Option<Key>) returns (cands: seq<Key>, total: nat, candBytes: nat)
    requires t.Knows(live)
    ensures Distinct(cands) && SetOf(cands) == Candidates(t, live, keep)
    ensures total == Sum(t.bytes, live) && candBytes == Sum(t.bytes, Candidates(t, live, keep))
  {
    hide Candidates, Distinct, Sum;
    Empty(t, keep);
    cands, total, candBytes := [], 0, 0;
    var todo, seen := live, {};
    while todo != {}
      invariant seen + todo == live && seen !! todo && t.Knows(seen)
      invariant Distinct(cands) && SetOf(cands) == Candidates(t, seen, keep)
      invariant total == Sum(t.bytes, seen) && candBytes == Sum(t.bytes, Candidates(t, seen, keep))
    {
      var k :| k in todo;
      SumWith(t.bytes, seen, k);
      CandidatesWith(t, seen, k, keep);
      total := total + t.bytes[k];
      if Some(k) != keep && t.refs[k] == 0 {
        InsertDistinct(cands, |cands|, k);
        SumWith(t.bytes, Candidates(t, seen, keep), k);
        assert cands[..|cands|] + [k] + cands[|cands|..] == cands + [k];
        cands, candBytes := cands + [k], candBytes + t.bytes[k];
      }
      todo, seen := todo - {k}, seen + {k};
    }
    assert seen == live;
  }

  lemma Empty(t: Table, keep: Option<Key>)
    ensures Distinct([]) && SetOf<Key>([]) == Candidates(t, {}, keep) == {}
    ensures Sum(t.bytes, {}) == 0
  {
  }

  // The table records the pins of the sessions that are registered.
  ghost predicate Agrees(t: Table, s: State) {
    && t.Knows(s.live.Keys)
    && forall k :: k in s.live ==> s.live[k] < |s.all| && t.refs[k] == s.all[s.live[k]].refs
  }

  predicate Evictions(es: seq<Step>, s: State, keys: set<Key>) {
    forall e :: e in es ==> e.Evict? && e.k < |s.all| && s.all[e.k].key in keys
  }

  // The registry after the sessions of the given keys were evicted one by one.
  ghost function Taken(s: State, vs: seq<Key>): State {
    if vs == [] then s
    else
      var p := Taken(s, vs[..|vs| - 1]);
      var k := vs[|vs| - 1];
      if k in p.live && Enabled(p, Evict(p.live[k])) then Next(p, Evict(p.live[k])) else p
  }

  ghost predicate AllIdle(s: State, ks: seq<Key>) {
    forall k :: k in ks ==> k in s.live && s.live[k] < |s.all| && s.all[s.live[k]].refs == 0
  }

  // Evicting is a run of the registry that takes exactly these sessions and
  // leaves the others as they are.
  lemma {:induction false} TakenIsRun(s: State, vs: seq<Key>) returns (es: seq<Step>)
    requires Inv(s) && Distinct(vs) && AllIdle(s, vs)
    ensures Inv(Taken(s, vs)) && Run(s, es) && After(s, es) == Taken(s, vs) && Evictions(es, s, SetOf(vs))
    ensures var t := Taken(s, vs);
      && |t.all| == |s.all| && t.live.Keys == s.live.Keys - SetOf(vs)
      && forall k :: k in s.live && k !in vs ==>
           t.live[k] == s.live[k] && (s.live[k] < |s.all| ==> t.all[s.live[k]] == s.all[s.live[k]])
  {
    hide Inv, Run, After, Enabled, Next;
    StartsHere(s);
    if vs == [] {
      es := [];
    } else {
      var init, k := vs[..|vs| - 1], vs[|vs| - 1];
      assert vs == init + [k] && k !in init;
      var before := TakenIsRun(s, init);
      var p := Taken(s, init);
      EvictAlone(p, k);
      RunExtends(s, before, Evict(p.live[k]));
      es := before + [Evict(p.live[k])];
      assert SetOf(vs) == SetOf(init) + {k};
    }
  }

  // The loop over the sorted candidates.
  method EvictLoop(registry: Registry, t: Table, cands: seq<Key>, sessions: int, bytes: int,
                   byteCapReachable: bool, caps: Caps)
    returns (victims: seq<Key>)
    requires SetOf(cands) <= t.bytes.Keys && Distinct(cands)
    requires Inv(registry.View()) && AllIdle(registry.View(), cands)
    modifies registry
    ensures victims == Victims(t, cands, sessions, bytes, byteCapReachable, caps)
    ensures registry.View() == Taken(old(registry.View()), victims)
  {
    hide Inv, Enabled, Next, Distinct, AllIdle, Taken, Victims, Leads;
    ghost var before := registry.View();
    ghost var all := Victims(t, cands, sessions, bytes, byteCapReachable, caps);
    var count, total := sessions, bytes;
    victims := [];
    NoneTaken(before);
    LeadsFirst(t, cands, sessions, bytes, byteCapReachable, caps);
    for i := 0 to |cands|
      invariant SetOf(cands[i..]) <= SetOf(cands)
      invariant Leads(all, victims, t, cands[i..], count, total, byteCapReachable, caps)
      invariant (forall v :: v in victims ==> v in cands[..i]) && Distinct(victims)
      invariant registry.View() == Taken(before, victims)
    {
      var overCount, overBytes := count > caps.sessions, byteCapReachable && total > caps.bytes;
      LeadsOn(all, victims, t, cands, i, count, total, byteCapReachable, caps);
      if !overCount && !overBytes {
        return;
      }
      var k := cands[i];
      if overCount || t.bytes[k] != 0 {
        TakeNext(before, cands, i, victims);
        registry.Take(k);
        victims := victims + [k];
        count, total := count - 1, total - t.bytes[k];
      }
    }
    LeadsEnd(all, victims, t, cands, count, total, byteCapReachable, caps);
  }

  // All the victims are those found so far and those among the rest.
  ghost predicate Leads(all: seq<Key>, victims: seq<Key>, t: Table, rest: seq<Key>, count: int, total: int,
                        reachable: bool, caps: Caps)
    requires SetOf(rest) <= t.bytes.Keys
  {
    all == victims + Victims(t, rest, count, total, reachable, caps)
  }

  lemma LeadsFirst(t: Table, ks: seq<Key>, count: int, total: int, reachable: bool, caps: Caps)
    requires SetOf(ks) <= t.bytes.Keys
    ensures ks[0..] == ks &&
      Leads(Victims(t, ks, count, total, reachable, caps), [], t, ks[0..], count, total, reachable, caps)
  {
    hide Victims;
    assert ks[0..] == ks;
  }

  lemma LeadsOn(all: seq<Key>, victims: seq<Key>, t: Table, ks: seq<Key>, i: nat, count: int, total: int,
                reachable: bool, caps: Caps)
    requires i < |ks| && SetOf(ks[i..]) <= t.bytes.Keys &&
      Leads(all, victims, t, ks[i..], count, total, reachable, caps)
    ensures SetOf(ks[i + 1..]) <= SetOf(ks[i..]) && ks[i] in SetOf(ks[i..])
    ensures
      var k, rest := ks[i], ks[i + 1..];
      if count <= caps.sessions && !(reachable && total > caps.bytes) then all == victims
      else if count <= caps.sessions && t.bytes[k] == 0 then Leads(all, victims, t, rest, count, total, reachable, caps)
      else Leads(all, victims + [k], t, rest, count - 1, total - t.bytes[k], reachable, caps)
  {
    assert ks[i..][0] == ks[i] && ks[i..][1..] == ks[i + 1..];
  }

  lemma LeadsEnd(all: seq<Key>, victims: seq<Key>, t: Table, ks: seq<Key>, count: int, total: int, reachable: bool,
                 caps: Caps)
    requires SetOf(ks[|ks|..]) <= t.bytes.Keys && Leads(all, victims, t, ks[|ks|..], count, total, reachable, caps)
    ensures all == victims
  {
    assert victims + [] == victims;
  }

  // The next victim is still idle and registered, and taking it extends Taken.
  lemma TakeNext(s: State, cands: seq<Key>, i: nat, victims: seq<Key>)
    requires Inv(s) && AllIdle(s, cands) && Distinct(cands) && i < |cands|
    requires Distinct(victims) && forall v :: v in victims ==> v in cands[..i]
    ensures var p, k := Taken(s, victims), cands[i];
      && Inv(p) && k in p.live && p.live[k] < |p.all| && p.all[p.live[k]].refs == 0
      && Enabled(p, Evict(p.live[k])) && Taken(s, victims + [k]) == Next(p, Evict(p.live[k]))
    ensures Distinct(victims + [cands[i]])
  {
    hide Inv, Run, After, Enabled, Next;
    var k := cands[i];
    assert k !in victims by {
      assert forall j :: 0 <= j < i ==> cands[j] != k;
    }
    assert AllIdle(s, victims);
    var es := TakenIsRun(s, victims);
    EvictAlone(Taken(s, victims), k);
    assert (victims + [k])[..|victims|] == victims;
  }

  // archiveEnforceCaps; retired is what the retired sessions hold. order is the
  // sorted candidate list the loop goes through.
  method EnforceCaps(registry: Registry, t: Table, retired: nat, keep: Option<Key>, caps: Caps)
    returns (victims: seq<Key>, order: seq<Key>)
    requires Inv(registry.View()) && Agrees(t, registry.View())
    modifies registry
    ensures var live := old(registry.live.Keys);
      && SetOf(order) == Candidates(t, live, keep) && Distinct(order) && Sorted(order, t.last)
      && victims == Chosen(t, live, retired, keep, caps, order)
    ensures registry.View() == Taken(old(registry.View()), victims)
  {
    hide Inv, Victims, Sorted, Distinct, Taken, AllIdle, Candidates, Chosen, Agrees;
    KnowsLive(t, registry.View());
    var live := registry.live.Keys;
    var cands, total, candBytes := Scan(t, live, keep);
    order := SortByLast(t.last, cands);
    IdleCandidates(t, registry.View(), keep, order);
    var byteCapReachable := total + retired - candBytes <= caps.bytes;
    ChosenBy(t, live, retired, keep, caps, order);
    if |live| <= caps.sessions && total + retired <= caps.bytes {
      NoneNeeded(t, order, |live|, total + retired, byteCapReachable, caps);
      victims := [];
      NoneTaken(registry.View());
    } else {
      victims := EvictLoop(registry, t, order, |live|, total + retired, byteCapReachable, caps);
    }
  }

  lemma KnowsLive(t: Table, s: State)
    requires Agrees(t, s)
    ensures t.Knows(s.live.Keys)
  {
  }

  lemma ChosenBy(t: Table, live: set<Key>, retired: nat, keep: Option<Key>, caps: Caps, order: seq<Key>)
    requires t.Knows(live) && SetOf(order) <= live
    ensures Chosen(t, live, retired, keep, caps, order) ==
      Victims(t, order, |live|, Sum(t.bytes, live) + retired,
              Sum(t.bytes, live) + retired - Sum(t.bytes, Candidates(t, live, keep)) <= caps.bytes, caps)
  {
    hide Victims, Candidates;
  }

  lemma ChosenDistinct(t: Table, live: set<Key>, retired: nat, keep: Option<Key>, caps: Caps, order: seq<Key>)
    requires t.Knows(live) && SetOf(order) <= live && Distinct(order)
    ensures var vs := Chosen(t, live, retired, keep, caps, order); Distinct(vs) && forall v :: v in vs ==> v in order
  {
    hide Candidates, Reachable;
    VictimsDistinct(t, order, |live|, Sum(t.bytes, live) + retired, Reachable(t, live, retired, keep, caps), caps);
  }

  lemma NoneTaken(s: State)
    ensures Taken(s, []) == s && Distinct([])
  {
  }

  lemma IdleCandidates(t: Table, s: State, keep: Option<Key>, order: seq<Key>)
    requires Agrees(t, s) && SetOf(order) == Candidates(t, s.live.Keys, keep)
    ensures AllIdle(s, order)
  {
    assert forall k :: k in order ==> k in SetOf(order);
  }

  // So enforcing the caps is a run of evictions of the session machine, over
  // exactly the victims: what holds of every interleaving there covers it.
  lemma EnforcingIsEvicting(s: State, t: Table, retired: nat, keep: Option<Key>, caps: Caps, order: seq<Key>)
    returns (es: seq<Step>)
    requires Inv(s) && Agrees(t, s)
    requires SetOf(order) == Candidates(t, s.live.Keys, keep) && Distinct(order)
    ensures var vs := Chosen(t, s.live.Keys, retired, keep, caps, order);
      && Run(s, es) && After(s, es) == Taken(s, vs) && Evictions(es, s, SetOf(vs))
      && Inv(Taken(s, vs)) && Taken(s, vs).live.Keys == s.live.Keys - SetOf(vs)
  {
    hide Inv, Run, After, Taken, Evictions, Chosen, Candidates, Distinct, Agrees;
    KnowsLive(t, s);
    IdleCandidates(t, s, keep, order);
    ChosenDistinct(t, s.live.Keys, retired, keep, caps, order);
    es := TakenIsRun(s, Chosen(t, s.live.Keys, retired, keep, caps, order));
  }

  // Whether dropping every candidate brings the bytes under their cap.
  ghost predicate Reachable(t: Table, live: set<Key>, retired: nat, keep: Option<Key>, caps: Caps)
    requires t.Knows(live)
  {
    Sum(t.bytes, live) + retired - Sum(t.bytes, Candidates(t, live, keep)) <= caps.bytes
  }

  ghost function Chosen(t: Table, live: set<Key>, retired: nat, keep: Option<Key>, caps: Caps,
                        order: seq<Key>): (vs: seq<Key>)
    requires t.Knows(live) && SetOf(order) <= live
    ensures SetOf(vs) <= SetOf(order)
  {
    Victims(t, order, |live|, Sum(t.bytes, live) + retired, Reachable(t, live, retired, keep, caps), caps)
  }

  // What EnforceCaps leaves: the byte cap holds if it can, and the session cap
  // holds or no candidate is left.
  lemma CapsHold(t: Table, live: set<Key>, retired: nat, keep: Option<Key>, caps: Caps, order: seq<Key>)
    requires t.Knows(live) && SetOf(order) == Candidates(t, live, keep) && Distinct(order)
    ensures var left := live - SetOf(Chosen(t, live, retired, keep, caps, order));
      && (Reachable(t, live, retired, keep, caps) ==> Sum(t.bytes, left) + retired <= caps.bytes)
      && (|left| <= caps.sessions || Candidates(t, left, keep) == {})
      && (|left| <= caps.sessions || forall k :: k in left ==> Some(k) == keep || t.refs[k] > 0)
  {
    hide Victims, Distinct, BytesOf;
    var total, can := Sum(t.bytes, live) + retired, Reachable(t, live, retired, keep, caps);
    var vs := Chosen(t, live, retired, keep, caps, order);
    VictimsSuffice(t, order, |live|, total, can, caps);
    VictimsDistinct(t, order, |live|, total, can, caps);
    BytesAreSum(t, order);
    BytesAreSum(t, vs);
    SumSplit(t.bytes, live, SetOf(vs));
    Counted(vs, live);
    if |vs| == |order| {
      Counted(vs, SetOf(order));
      Counted(order, SetOf(order));
      AllTaken(SetOf(order), SetOf(vs));
    }
  }

  // Whenever what cannot be dropped fits the byte cap, what is left fits it.
  lemma BytesFit(t: Table, live: set<Key>, retired: nat, keep: Option<Key>, caps: Caps, order: seq<Key>, busy: set<Key>)
    requires t.Knows(live) && SetOf(order) == Candidates(t, live, keep) && Distinct(order)
    requires forall k :: k in busy <==> k in live && (Some(k) == keep || t.refs[k] > 0)
    requires Sum(t.bytes, busy) + retired <= caps.bytes
    ensures Sum(t.bytes, live - SetOf(Chosen(t, live, retired, keep, caps, order))) + retired <= caps.bytes
  {
    hide Victims, Distinct, BytesOf, Sum;
    assert busy == live - Candidates(t, live, keep);
    SumSplit(t.bytes, live, Candidates(t, live, keep));
    CapsHold(t, live, retired, keep, caps, order);
  }

  lemma AllTaken(all: set<Key>, taken: set<Key>)
    requires taken <= all && |taken| == |all|
    ensures taken == all
  {
    assert |all - taken| == 0;
  }

  // The session to keep and those in use stay, and nobody but a victim goes.
  lemma KeptSurvives(s: State, t: Table, retired: nat, keep: Option<Key>, caps: Caps, order: seq<Key>, k: Key)
    requires Inv(s) && Agrees(t, s) && k in s.live
    requires SetOf(order) == Candidates(t, s.live.Keys, keep) && Distinct(order)
    ensures var vs := Chosen(t, s.live.Keys, retired, keep, caps, order); var u := Taken(s, vs);
      && s.live[k] < |s.all|
      && (Some(k) == keep || s.all[s.live[k]].refs > 0 ==> k !in vs)
      && (k in u.live <==> k !in vs)
      && (k in u.live ==> u.live[k] == s.live[k] && s.live[k] < |u.all| && u.all[s.live[k]] == s.all[s.live[k]])
  {
    hide Inv, Run, After, Taken, Evictions, Chosen, Distinct;
    KnowsLive(t, s);
    IdleCandidates(t, s, keep, order);
    ChosenDistinct(t, s.live.Keys, retired, keep, caps, order);
    StartsHere(s);
    var es := TakenIsRun(s, Chosen(t, s.live.Keys, retired, keep, caps, order));
    assert k in order ==> k in SetOf(order);
  }

  // Each victim helped a cap that was exceeded when it was taken.
  lemma VictimsAreNeeded(t: Table, live: set<Key>, retired: nat, keep: Option<Key>, caps: Caps, order: seq<Key>)
    requires t.Knows(live) && SetOf(order) == Candidates(t, live, keep)
    ensures AllHelp(t, Chosen(t, live, retired, keep, caps, order), |live|, Sum(t.bytes, live) + retired,
                    Reachable(t, live, retired, keep, caps), caps)
  {
    hide Victims, Helps, Candidates, Reachable;
    var total, can := Sum(t.bytes, live) + retired, Reachable(t, live, retired, keep, caps);
    var vs := Chosen(t, live, retired, keep, caps, order);
    forall i: nat | i < |vs|
      ensures Helps(t, vs, i, |live|, total, can, caps)
    {
      VictimsHelp(t, order, |live|, total, can, caps, i);
    }
  }

  // Victims go in order of last access: an idle session used longer ago than a
  // victim stays only if it holds nothing while the victim does.
  lemma VictimsAreOldest(t: Table, live: set<Key>, retired: nat, keep: Option<Key>, caps: Caps, order: seq<Key>,
                         k: Key, v: Key)
    requires t.Knows(live) && SetOf(order) == Candidates(t, live, keep) && Distinct(order) && Sorted(order, t.last)
    requires var vs := Chosen(t, live, retired, keep, caps, order);
      k in Candidates(t, live, keep) && k !in vs && v in vs
    requires t.last[k] < t.last[v]
    ensures t.bytes[k] == 0 && t.bytes[v] > 0
  {
    hide Victims, Candidates, Reachable, Distinct;
    assert v in SetOf(order);
    var i :| 0 <= i < |order| && order[i] == k;
    var j :| 0 <= j < |order| && order[j] == v;
    VictimsInOrder(t, order, |live|, Sum(t.bytes, live) + retired, Reachable(t, live, retired, keep, caps), caps, i, j);
  }

  lemma {:induction false} Counted(ks: seq<Key>, live: set<Key>)
    requires Distinct(ks) && SetOf(ks) <= live
    ensures |SetOf(ks)| == |ks| && |live - SetOf(ks)| == |live| - |ks|
  {
    SizeOf(ks);
    assert |live| == |live - SetOf(ks)| + |SetOf(ks)| by {
      assert live == (live - SetOf(ks)) + SetOf(ks);
    }
  }

  lemma {:induction false} SizeOf(ks: seq<Key>)
    requires Distinct(ks)
    ensures |SetOf(ks)| == |ks|
  {
    if ks == [] {
      assert SetOf(ks) == {};
    } else {
      SizeOf(ks[1..]);
      assert ks[0] !in ks[1..];
      assert SetOf(ks) == SetOf(ks[1..]) + {ks[0]};
    }
  }
}
