// Who removes an HLS session's directory: HLSFile entry and exit, DeleteHLS,
// evictIdle and removeDeletedSession of internal/media/hls.go, one atomic step
// per critical section or atomic access.
module HlsLifecycle {
  import opened Wrappers

  type Id = string

  // busy is inFlight: calls inside HLSFile. The other counters are threads
  // between two steps: exiting took inFlight to 0 and has not loaded deleted;
  // calling is about to enter removeDeletedSession; wiping won its CAS; clearing
  // has removed the directory. wipes counts removals of the directory.
  datatype Session = Session(id: Id, busy: nat, exiting: nat, deleted: bool, calling: nat, removed: bool,
                             wiping: nat, clearing: nat, wipes: nat)

  // Sessions are numbered in the order of creation; lock is the session whose
  // DeleteHLS holds the manager's mutex.
  datatype State = State(all: seq<Session>, sessions: map<Id, nat>, draining: map<Id, nat>, lock: Option<nat>)

  datatype Step =
    | Start(id: Id, limit: nat)
    | Enter(id: Id)
    | Exit(k: nat)
    | Check(k: nat)
    | DeleteBegin(id: Id)
    | DeleteEnd
    | Evict(k: nat)
    | Claim(k: nat)
    | Wipe(k: nat)
    | Clear(k: nat)

  const INITIAL := State([], map[], map[], None)

  function Fresh(id: Id): Session {
    Session(id, 0, 0, false, 0, false, 0, 0, 0)
  }

  predicate Registered(s: State, k: nat) {
    k < |s.all| && s.all[k].id in s.sessions && s.sessions[s.all[k].id] == k
  }

  predicate Enabled(s: State, e: Step) {
    match e
    case Start(_, _) => s.lock.None?
    case Enter(id) => s.lock.None? && (id in s.sessions ==> s.sessions[id] < |s.all|)
    case Exit(k) => k < |s.all| && s.all[k].busy > 0
    case Check(k) => k < |s.all| && s.all[k].exiting > 0
    case DeleteBegin(id) => s.lock.None? && (id in s.sessions ==> s.sessions[id] < |s.all|)
    case DeleteEnd => s.lock.Some? && s.lock.value < |s.all|
    case Evict(k) => s.lock.None? && Registered(s, k) && s.all[k].busy == 0
    case Claim(k) => k < |s.all| && s.all[k].calling > 0
    case Wipe(k) => k < |s.all| && s.all[k].wiping > 0
    case Clear(k) => k < |s.all| && s.all[k].clearing > 0 && s.lock.None?
  }

  function Next(s: State, e: Step): State
    requires Enabled(s, e)
  {
    match e
    case Start(id, limit) =>
      if id in s.sessions || id in s.draining || |s.sessions| >= limit then s
      else s.(all := s.all + [Fresh(id)], sessions := s.sessions[id := |s.all|])
    case Enter(id) =>
      if id !in s.sessions then s
      else var k := s.sessions[id]; s.(all := s.all[k := s.all[k].(busy := s.all[k].busy + 1)])
    case Exit(k) =>
      var x := s.all[k];
      s.(all := s.all[k := x.(busy := x.busy - 1, exiting := if x.busy == 1 then x.exiting + 1 else x.exiting)])
    case Check(k) =>
      var x := s.all[k];
      s.(all := s.all[k := x.(exiting := x.exiting - 1, calling := if x.deleted then x.calling + 1 else x.calling)])
    case DeleteBegin(id) =>
      if id !in s.sessions then s
      else
        var k := s.sessions[id];
        State(s.all[k := s.all[k].(deleted := true)], s.sessions - {id}, s.draining[id := k], Some(k))
    case DeleteEnd =>
      var k := s.lock.value;
      var x := s.all[k];
      s.(all := s.all[k := x.(calling := if x.busy == 0 then x.calling + 1 else x.calling)], lock := None)
    case Evict(k) =>
      var x := s.all[k];
      State(s.all[k := x.(deleted := true, calling := x.calling + 1)], s.sessions - {x.id}, s.draining[x.id := k], None)
    case Claim(k) =>
      var x := s.all[k];
      s.(all := s.all[k := if x.removed then x.(calling := x.calling - 1)
                           else x.(calling := x.calling - 1, removed := true, wiping := x.wiping + 1)])
    case Wipe(k) =>
      var x := s.all[k];
      s.(all := s.all[k := x.(wiping := x.wiping - 1, wipes := x.wipes + 1, clearing := x.clearing + 1)])
    case Clear(k) =>
      var x := s.all[k];
      s.(all := s.all[k := x.(clearing := x.clearing - 1)],
         draining := if x.id in s.draining && s.draining[x.id] == k then s.draining - {x.id} else s.draining)
  }

  // ---------------------------------------------------------------- invariant

  // At most one thread ever wins the CAS of a session, and only after its
  // deletion.
  ghost predicate Once(x: Session) {
    && (if x.removed then x.deleted && x.wiping + x.wipes == 1 else x.wiping == 0 && x.wipes == 0)
    && x.clearing <= x.wipes
    && (x.calling > 0 ==> x.deleted)
  }

  // The id of x may be used again.
  predicate Done(x: Session) {
    x.wipes == 1 && x.clearing == 0
  }

  // A session is registered until deleted, then draining until it is done.
  ghost predicate Placed(s: State) {
    && (forall k :: 0 <= k < |s.all| ==>
         var x := s.all[k];
         && (!x.deleted ==> x.id in s.sessions && s.sessions[x.id] == k)
         && (x.deleted && !Done(x) ==> x.id in s.draining && s.draining[x.id] == k))
    && (forall id :: id in s.sessions ==>
         s.sessions[id] < |s.all| && s.all[s.sessions[id]].id == id && !s.all[s.sessions[id]].deleted)
    && (forall id :: id in s.draining ==>
         && s.draining[id] < |s.all| && s.all[s.draining[id]].id == id
         && s.all[s.draining[id]].deleted && !Done(s.all[s.draining[id]]))
    && (forall id :: id in s.sessions ==> id !in s.draining)
  }

  ghost predicate Locked(s: State) {
    s.lock.Some? ==> s.lock.value < |s.all| && s.all[s.lock.value].deleted
  }

  // Somebody will still try to remove x, or has.
  ghost predicate Owed(s: State, k: nat)
    requires k < |s.all|
  {
    var x := s.all[k];
    x.deleted ==> x.removed || x.busy + x.exiting + x.calling > 0 || s.lock == Some(k)
  }

  ghost predicate Inv(s: State) {
    && (forall k :: 0 <= k < |s.all| ==> Once(s.all[k]) && Owed(s, k))
    && Placed(s) && Locked(s)
  }

  // The session a step changes, if it is one.
  function Touched(s: State, e: Step): (k: nat)
    requires Enabled(s, e) && !e.Start? && (e.Enter? || e.DeleteBegin? ==> e.id in s.sessions)
    ensures k < |s.all|
  {
    match e
    case Enter(id) => s.sessions[id]
    case DeleteBegin(id) => s.sessions[id]
    case DeleteEnd => s.lock.value
    case Exit(k) => k
    case Check(k) => k
    case Evict(k) => k
    case Claim(k) => k
    case Wipe(k) => k
    case Clear(k) => k
  }

  lemma OneTouched(s: State, e: Step)
    requires Enabled(s, e) && !e.Start? && (e.Enter? || e.DeleteBegin? ==> e.id in s.sessions)
    ensures var t, k := Next(s, e), Touched(s, e);
      |t.all| == |s.all| && t.all == s.all[k := t.all[k]] && t.all[k].id == s.all[k].id
  {
  }

  lemma TouchedOnce(s: State, e: Step)
    requires Enabled(s, e) && !e.Start? && (e.Enter? || e.DeleteBegin? ==> e.id in s.sessions)
    requires Locked(s) && Once(s.all[Touched(s, e)])
    ensures Touched(s, e) < |Next(s, e).all| && Once(Next(s, e).all[Touched(s, e)])
  {
  }

  lemma NewOnce(id: Id)
    ensures Once(Fresh(id))
  {
  }

  lemma OnceKept(s: State, e: Step)
    requires Inv(s) && Enabled(s, e)
    ensures forall k :: 0 <= k < |Next(s, e).all| ==> Once(Next(s, e).all[k])
  {
    hide Owed, Placed, Once, Touched;
    if e.Start? {
      NewOnce(e.id);
    } else if e.Enter? || e.DeleteBegin? ==> e.id in s.sessions {
      OneTouched(s, e);
      TouchedOnce(s, e);
    }
  }

  // A step of session k alone that leaves somebody owing it.
  lemma OneOwed(s: State, t: State, k: nat)
    requires k < |s.all| && |t.all| == |s.all| && t.all == s.all[k := t.all[k]] && Owed(t, k)
    requires forall j :: 0 <= j < |s.all| ==> Owed(s, j)
    requires s.lock == t.lock || s.lock == None || s.lock == Some(k)
    ensures forall j :: 0 <= j < |t.all| ==> Owed(t, j)
  {
    forall j | 0 <= j < |t.all|
      ensures Owed(t, j)
    {
      assert Owed(s, j);
    }
  }

  lemma TouchedOwed(s: State, e: Step)
    requires Enabled(s, e) && !e.Start? && (e.Enter? || e.DeleteBegin? ==> e.id in s.sessions)
    requires Owed(s, Touched(s, e)) && Once(s.all[Touched(s, e)])
    ensures var t, k := Next(s, e), Touched(s, e);
      |t.all| == |s.all| && t.all == s.all[k := t.all[k]] && Owed(t, k) &&
        (s.lock == t.lock || s.lock == None || s.lock == Some(k))
  {
  }

  lemma OwedKept(s: State, e: Step)
    requires Inv(s) && Enabled(s, e)
    ensures forall k :: 0 <= k < |Next(s, e).all| ==> Owed(Next(s, e), k)
  {
    hide Placed, Once;
    if !e.Start? && (e.Enter? || e.DeleteBegin? ==> e.id in s.sessions) {
      TouchedOwed(s, e);
      OneOwed(s, Next(s, e), Touched(s, e));
    }
  }

  lemma LockedKept(s: State, e: Step)
    requires Inv(s) && Enabled(s, e)
    ensures Locked(Next(s, e))
  {
    hide Owed, Once;
  }

  // Steps that only move threads around leave every session where it is.
  lemma SamePlaces(s: State, t: State)
    requires Placed(s) && t.sessions == s.sessions && t.draining == s.draining && |t.all| == |s.all|
    requires forall k {:trigger t.all[k]} :: 0 <= k < |s.all| ==>
      t.all[k].id == s.all[k].id && t.all[k].deleted == s.all[k].deleted && Done(t.all[k]) == Done(s.all[k])
    ensures Placed(t)
  {
  }

  lemma StartPlaced(s: State, id: Id, limit: nat)
    requires Placed(s) && Enabled(s, Start(id, limit))
    ensures Placed(Next(s, Start(id, limit)))
  {
  }

  // DeleteBegin and Evict move a session from one map to the other.
  lemma RetirePlaced(s: State, t: State, k: nat)
    requires Placed(s) && k < |s.all| && !s.all[k].deleted && !Done(s.all[k])
    requires t.sessions == s.sessions - {s.all[k].id} && t.draining == s.draining[s.all[k].id := k]
    requires exists calling: nat :: t.all == s.all[k := s.all[k].(deleted := true, calling := calling)]
    ensures Placed(t)
  {
  }

  lemma ClearPlaced(s: State, k: nat)
    requires Inv(s) && Enabled(s, Clear(k))
    ensures Placed(Next(s, Clear(k)))
  {
    hide Owed;
  }

  lemma PlacedKept(s: State, e: Step)
    requires Inv(s) && Enabled(s, e)
    ensures Placed(Next(s, e))
  {
    hide Owed, Placed, Once;
    match e
    case Start(id, limit) => StartPlaced(s, id, limit);
    case DeleteBegin(id) => DeletePlaced(s, id);
    case Evict(k) => EvictPlaced(s, k);
    case Clear(k) => ClearPlaced(s, k);
    case Wipe(k) => WipePlaced(s, k);
    case _ => SamePlaces(s, Next(s, e));
  }

  lemma DeletePlaced(s: State, id: Id)
    requires Inv(s) && Enabled(s, DeleteBegin(id))
    ensures Placed(Next(s, DeleteBegin(id)))
  {
    hide Owed;
    if id in s.sessions {
      RetirePlaced(s, Next(s, DeleteBegin(id)), s.sessions[id]);
    }
  }

  lemma EvictPlaced(s: State, k: nat)
    requires Inv(s) && Enabled(s, Evict(k))
    ensures Placed(Next(s, Evict(k)))
  {
    hide Owed;
    RetirePlaced(s, Next(s, Evict(k)), k);
  }

  lemma WipePlaced(s: State, k: nat)
    requires Inv(s) && Enabled(s, Wipe(k))
    ensures Placed(Next(s, Wipe(k)))
  {
    hide Owed, Placed;
    assert Once(s.all[k]);
    SamePlaces(s, Next(s, Wipe(k)));
  }

  lemma InvKept(s: State, e: Step)
    requires Inv(s) && Enabled(s, e)
    ensures Inv(Next(s, e))
  {
    hide Next, Once, Owed, Placed, Locked;
    OnceKept(s, e);
    OwedKept(s, e);
    PlacedKept(s, e);
    LockedKept(s, e);
  }

  // ------------------------------------------------------------- what is kept

  ghost predicate Run(s: State, es: seq<Step>)
    decreases |es|
  {
    es == [] || (Enabled(s, es[0]) && Run(Next(s, es[0]), es[1..]))
  }

  ghost function After(s: State, es: seq<Step>): State
    requires Run(s, es)
    decreases |es|
  {
    if es == [] then s else After(Next(s, es[0]), es[1..])
  }

  lemma {:induction false} RunKeeps(s: State, es: seq<Step>)
    requires Inv(s) && Run(s, es)
    ensures Inv(After(s, es))
    decreases |es|
  {
    hide Inv, Next, Enabled;
    if es != [] {
      InvKept(s, es[0]);
      RunKeeps(Next(s, es[0]), es[1..]);
    }
  }

  // Over every interleaving a directory is removed at most once; a deleted
  // session is draining exactly until that removal is done; and once no thread
  // has anything left to do, every deleted session has been removed.
  lemma EveryRemovalHappensOnce(es: seq<Step>, k: nat)
    requires Run(INITIAL, es) && k < |After(INITIAL, es).all|
    ensures var s := After(INITIAL, es); var x := s.all[k];
      && x.wipes <= 1 && (x.wipes > 0 ==> x.deleted)
      && (x.deleted && !Done(x) <==> x.id in s.draining && s.draining[x.id] == k)
      && (x.deleted && s.lock.None? && x.busy + x.exiting + x.calling + x.wiping + x.clearing == 0 ==> Done(x))
  {
    hide Run, After;
    assert Inv(INITIAL);
    RunKeeps(INITIAL, es);
  }

  // RemoveAll works on a directory that no other session of the same id uses,
  // and an id is given to a new session only when every removal under it is done.
  lemma IdsAreReusedSafely(s: State, k: nat)
    requires Inv(s) && k < |s.all|
    ensures s.all[k].wiping > 0 ==>
      forall j :: 0 <= j < |s.all| && j != k && s.all[j].id == s.all[k].id ==> Done(s.all[j])
    ensures forall id, limit ::
      Enabled(s, Start(id, limit)) && Next(s, Start(id, limit)) != s && s.all[k].id == id ==> Done(s.all[k])
  {
    hide Owed;
  }

  // -------------------------------------------------------- calls and starts

  predicate EntersSession(s: State, e: Step, k: nat) {
    e.Enter? && e.id in s.sessions && s.sessions[e.id] == k
  }

  // The calls of a run that entered session k, less those that left it.
  ghost function Calls(s: State, es: seq<Step>, k: nat): int
    requires Run(s, es)
    decreases |es|
  {
    if es == [] then 0
    else
      var more := if EntersSession(s, es[0], k) then 1 else if es[0] == Exit(k) then -1 else 0;
      more + Calls(Next(s, es[0]), es[1..], k)
  }

  // The removals of its directory.
  function Wipes(es: seq<Step>, k: nat): nat {
    if es == [] then 0 else (if es[0] == Wipe(k) then 1 else 0) + Wipes(es[1..], k)
  }

  function BusyOf(s: State, k: nat): nat {
    if k < |s.all| then s.all[k].busy else 0
  }

  function WipesOf(s: State, k: nat): nat {
    if k < |s.all| then s.all[k].wipes else 0
  }

  lemma StepCounts(s: State, e: Step, k: nat)
    requires Inv(s) && Enabled(s, e)
    ensures BusyOf(Next(s, e), k) == BusyOf(s, k) + if EntersSession(s, e, k) then 1 else if e == Exit(k) then -1 else 0
    ensures WipesOf(Next(s, e), k) == WipesOf(s, k) + if e == Wipe(k) then 1 else 0
  {
    hide Inv, Touched;
    if !e.Start? && (e.Enter? || e.DeleteBegin? ==> e.id in s.sessions) {
      OneTouched(s, e);
      TouchedCounts(s, e);
    }
  }

  lemma TouchedCounts(s: State, e: Step)
    requires Enabled(s, e) && !e.Start? && (e.Enter? || e.DeleteBegin? ==> e.id in s.sessions)
    ensures var t, k := Next(s, e), Touched(s, e);
      && k < |t.all|
      && t.all[k].busy == s.all[k].busy + (if e.Enter? then 1 else if e.Exit? then -1 else 0)
      && t.all[k].wipes == s.all[k].wipes + (if e.Wipe? then 1 else 0)
      && (e.Enter? ==> k == s.sessions[e.id]) && (e.Exit? || e.Wipe? ==> k == e.k)
      && (s.all[k].deleted ==> t.all[k].deleted)
  {
  }

  // Over every interleaving busy is the number of calls in the session, and wipes
  // the number of removals.
  lemma {:induction false} CallsAreCounted(s: State, es: seq<Step>, k: nat)
    requires Inv(s) && Run(s, es)
    ensures BusyOf(After(s, es), k) == BusyOf(s, k) + Calls(s, es, k)
    ensures WipesOf(After(s, es), k) == WipesOf(s, k) + Wipes(es, k)
    decreases |es|
  {
    hide Inv, Next, Enabled, BusyOf, WipesOf, EntersSession;
    if es != [] {
      StepCounts(s, es[0], k);
      InvKept(s, es[0]);
      CallsAreCounted(Next(s, es[0]), es[1..], k);
    }
  }

  // A session is started exactly if its id has none, none of it is draining and
  // the limit is not reached; it takes a deletion or an eviction to unregister it.
  lemma WhoIsRegistered(s: State, e: Step, id: Id)
    requires Inv(s) && Enabled(s, e)
    ensures var t := Next(s, e);
      if e.Start? && e.id == id && id !in s.sessions && id !in s.draining && |s.sessions| < e.limit then
        && |t.all| == |s.all| + 1 && t.all[|s.all|] == Fresh(id)
        && id in t.sessions && t.sessions[id] == |s.all|
      else if e == DeleteBegin(id) || (e.Evict? && s.all[e.k].id == id) then
        id !in t.sessions && (id in s.sessions ==> s.sessions[id] < |t.all| && t.all[s.sessions[id]].deleted)
      else (id in t.sessions <==> id in s.sessions) && (id in s.sessions ==> t.sessions[id] == s.sessions[id])
  {
    hide Inv;
    if id in s.sessions {
      EnteredLive(s, id);
    }
    if (e.Enter? || e.DeleteBegin?) && e.id in s.sessions {
      EnteredLive(s, e.id);
    }
  }

  lemma HowMany(s: State, e: Step)
    requires Enabled(s, e)
    ensures |Next(s, e).sessions| <= |s.sessions| || (e.Start? && |Next(s, e).sessions| <= e.limit)
  {
    match e
    case Start(id, _) => OneKeyMore(s.sessions, id, |s.all|);
    case DeleteBegin(id) => OneKeyLess(s.sessions, id);
    case Evict(k) => OneKeyLess(s.sessions, s.all[k].id);
    case _ =>
  }

  lemma OneKeyMore(m: map<Id, nat>, id: Id, k: nat)
    ensures id !in m ==> |m[id := k]| == |m| + 1
  {
    assert m[id := k].Keys == m.Keys + {id};
    assert |m.Keys| == |m| && |m[id := k].Keys| == |m[id := k]|;
  }

  lemma OneKeyLess(m: map<Id, nat>, id: Id)
    ensures |m - {id}| <= |m|
  {
    if id in m {
      OneKeyMore(m - {id}, id, m[id]);
      assert (m - {id})[id := m[id]] == m;
    } else {
      assert m - {id} == m;
    }
  }

  // Over every interleaving no more sessions are registered than the largest limit
  // a start was given.
  lemma {:induction false} LimitHolds(s: State, es: seq<Step>, limit: nat)
    requires Inv(s) && Run(s, es) && |s.sessions| <= limit && forall e :: e in es && e.Start? ==> e.limit <= limit
    ensures |After(s, es).sessions| <= limit
    decreases |es|
  {
    hide Inv, Next, Enabled;
    if es != [] {
      HowMany(s, es[0]);
      InvKept(s, es[0]);
      LimitHolds(Next(s, es[0]), es[1..], limit);
    }
  }

  lemma StaysDeleted(s: State, e: Step, k: nat)
    requires Inv(s) && Enabled(s, e) && k < |s.all| && s.all[k].deleted
    ensures k < |Next(s, e).all| && Next(s, e).all[k].deleted && !EntersSession(s, e, k)
  {
    hide Inv, Touched;
    if e.Enter? && e.id in s.sessions {
      EnteredLive(s, e.id);
    }
    if !e.Start? && (e.Enter? || e.DeleteBegin? ==> e.id in s.sessions) {
      OneTouched(s, e);
      TouchedCounts(s, e);
    }
  }

  // No call enters a session once it has been deleted, in any continuation.
  lemma {:induction false} DeletedIsNeverEntered(s: State, es: seq<Step>, k: nat)
    requires Inv(s) && Run(s, es) && k < |s.all| && s.all[k].deleted
    ensures var t := After(s, es); k < |t.all| && t.all[k].deleted && t.all[k].busy <= s.all[k].busy
    decreases |es|
  {
    hide Inv, Next, Enabled, EntersSession;
    if es != [] {
      StaysDeleted(s, es[0], k);
      StepCounts(s, es[0], k);
      InvKept(s, es[0]);
      DeletedIsNeverEntered(Next(s, es[0]), es[1..], k);
    }
  }

  // ------------------------------------------- removal under a call in flight

  // Some step of the run removes session k's directory while a call is in it.
  ghost predicate Harms(s: State, es: seq<Step>, k: nat)
    requires Run(s, es)
    decreases |es|
  {
    es != [] && ((es[0] == Wipe(k) && s.all[k].busy > 0) || Harms(Next(s, es[0]), es[1..], k))
  }

  predicate Quiet(es: seq<Step>, id: Id) {
    forall e :: e in es && e.Enter? ==> e.id != id
  }

  // A call is in flight beside a thread that is on its way to remove: the zero
  // that thread acts on is stale.
  predicate Exposed(x: Session) {
    x.busy > 0 && x.wipes == 0 && x.exiting + x.calling + x.wiping > 0
  }

  lemma StaysSafe(s: State, e: Step, k: nat)
    requires Inv(s) && Enabled(s, e) && k < |s.all| && !Exposed(s.all[k])
    requires e.Enter? ==> e.id != s.all[k].id
    ensures k < |Next(s, e).all| && Next(s, e).all[k].id == s.all[k].id
    ensures !Exposed(Next(s, e).all[k]) && !(e == Wipe(k) && s.all[k].busy > 0)
  {
    hide Owed, Placed, Once, Exposed, Touched;
    if !e.Start? && (e.Enter? || e.DeleteBegin? ==> e.id in s.sessions) {
      OneTouched(s, e);
      assert Once(s.all[k]);
      if e.Enter? {
        EnteredLive(s, e.id);
      } else if k == Touched(s, e) {
        TouchedStays(s, e);
      }
    }
    if e.Wipe? && e.k == k {
      WipeIsSafe(s, k);
    }
  }

  lemma TouchedStays(s: State, e: Step)
    requires Enabled(s, e) && !e.Start? && !e.Enter? && (e.DeleteBegin? ==> e.id in s.sessions)
    requires Once(s.all[Touched(s, e)]) && !Exposed(s.all[Touched(s, e)])
    ensures Touched(s, e) < |Next(s, e).all| && !Exposed(Next(s, e).all[Touched(s, e)])
  {
  }

  lemma {:induction false} SafeWhenNotExposed(s: State, es: seq<Step>, k: nat)
    requires Inv(s) && Run(s, es) && k < |s.all| && !Exposed(s.all[k]) && Quiet(es, s.all[k].id)
    ensures !Harms(s, es, k)
    decreases |es|
  {
    hide Inv, Next, Enabled, Exposed;
    if es != [] {
      assert es[0] in es && forall e :: e in es[1..] ==> e in es;
      StaysSafe(s, es[0], k);
      InvKept(s, es[0]);
      SafeWhenNotExposed(Next(s, es[0]), es[1..], k);
    }
  }

  lemma Prefixed(s: State, e: Step, es: seq<Step>, k: nat)
    requires Enabled(s, e) && Run(Next(s, e), es) && Harms(Next(s, e), es, k)
    ensures Run(s, [e] + es) && Harms(s, [e] + es, k)
  {
    assert ([e] + es)[1..] == es;
  }

  lemma LastStep(s: State, k: nat)
    requires k < |s.all| && s.all[k].wiping > 0 && s.all[k].busy > 0
    ensures Run(s, [Wipe(k)]) && Harms(s, [Wipe(k)], k)
  {
  }

  lemma HarmFromCall(s: State, k: nat) returns (es: seq<Step>)
    requires Inv(s) && k < |s.all| && s.all[k].busy > 0 && s.all[k].wipes == 0
    requires s.all[k].calling + s.all[k].wiping > 0
    ensures Run(s, es) && Harms(s, es, k) && forall e :: e in es ==> !e.Enter?
  {
    hide Placed, Owed, Run, Harms;
    if s.all[k].wiping > 0 {
      LastStep(s, k);
      es := [Wipe(k)];
    } else {
      LastStep(Next(s, Claim(k)), k);
      Prefixed(s, Claim(k), [Wipe(k)], k);
      es := [Claim(k)] + [Wipe(k)];
    }
  }

  lemma HarmFromExit(s: State, k: nat) returns (es: seq<Step>)
    requires Inv(s) && k < |s.all| && Exposed(s.all[k]) && s.all[k].deleted
    ensures Run(s, es) && Harms(s, es, k) && forall e :: e in es ==> !e.Enter?
  {
    hide Placed, Owed, Run, Harms;
    if s.all[k].calling + s.all[k].wiping > 0 {
      es := HarmFromCall(s, k);
    } else {
      InvKept(s, Check(k));
      var rest := HarmFromCall(Next(s, Check(k)), k);
      Prefixed(s, Check(k), rest, k);
      es := [Check(k)] + rest;
    }
  }

  lemma HarmFromDelete(s: State, k: nat) returns (es: seq<Step>)
    requires Inv(s) && k < |s.all| && Exposed(s.all[k]) && s.lock.None?
    ensures Run(s, es) && Harms(s, es, k) && forall e :: e in es ==> !e.Enter?
  {
    hide Owed, Run, Harms;
    if s.all[k].deleted {
      es := HarmFromExit(s, k);
    } else {
      var e := DeleteBegin(s.all[k].id);
      InvKept(s, e);
      var rest := HarmFromExit(Next(s, e), k);
      Prefixed(s, e, rest, k);
      es := [e] + rest;
    }
  }

  lemma HarmWhenExposed(s: State, k: nat) returns (es: seq<Step>)
    requires Inv(s) && k < |s.all| && Exposed(s.all[k])
    ensures Run(s, es) && Harms(s, es, k) && Quiet(es, s.all[k].id)
  {
    hide Placed, Owed, Run, Harms;
    if s.lock.None? {
      es := HarmFromDelete(s, k);
    } else {
      InvKept(s, DeleteEnd);
      var rest := HarmFromDelete(Next(s, DeleteEnd), k);
      Prefixed(s, DeleteEnd, rest, k);
      es := [DeleteEnd] + rest;
    }
  }

  // From any reachable state, and with no new call for the id, the directory of
  // session k can be removed under a call in flight exactly when k is exposed.
  lemma HarmExactlyWhenExposed(s: State, k: nat)
    requires Inv(s) && k < |s.all|
    ensures (exists es :: Run(s, es) && Quiet(es, s.all[k].id) && Harms(s, es, k)) <==> Exposed(s.all[k])
  {
    hide Inv, Exposed, Run, Harms, Quiet;
    if Exposed(s.all[k]) {
      var es := HarmWhenExposed(s, k);
    } else {
      forall es | Run(s, es) && Quiet(es, s.all[k].id)
        ensures !Harms(s, es, k)
      {
        SafeWhenNotExposed(s, es, k);
      }
    }
  }

  // Entering is what exposes: HTTP call on a session whose last exit has
  // brought inFlight to 0 and has not yet looked at deleted.
  predicate Overtakes(s: State, e: Step)
    requires Enabled(s, e)
  {
    e.Enter? && e.id in s.sessions && s.all[s.sessions[e.id]].exiting > 0
  }

  lemma OvertakingExposes(s: State, id: Id)
    requires Inv(s) && Enabled(s, Enter(id)) && id in s.sessions
    ensures Exposed(Next(s, Enter(id)).all[s.sessions[id]]) <==> Overtakes(s, Enter(id))
  {
    hide Owed;
  }

  ghost predicate Patient(s: State, es: seq<Step>)
    requires Run(s, es)
    decreases |es|
  {
    es != [] ==> !Overtakes(s, es[0]) && Patient(Next(s, es[0]), es[1..])
  }

  ghost predicate NoneExposed(s: State) {
    forall k :: 0 <= k < |s.all| ==> !Exposed(s.all[k])
  }

  lemma PatientStep(s: State, e: Step)
    requires Inv(s) && Enabled(s, e) && NoneExposed(s) && !Overtakes(s, e)
    ensures NoneExposed(Next(s, e))
    ensures forall k: nat :: e == Wipe(k) ==> s.all[k].busy == 0
  {
    hide Owed, Exposed, Inv;
    var t := Next(s, e);
    forall k | 0 <= k < |t.all|
      ensures !Exposed(t.all[k])
    {
      if k < |s.all| {
        PatientSession(s, e, k);
      } else {
        NewIsSafe(s, e, k);
      }
    }
    if e.Wipe? {
      WipeIsSafe(s, e.k);
    }
  }

  lemma TouchedSafe(s: State, e: Step)
    requires Enabled(s, e) && !e.Start? && (e.Enter? || e.DeleteBegin? ==> e.id in s.sessions)
    requires Once(s.all[Touched(s, e)]) && !Exposed(s.all[Touched(s, e)]) && !Overtakes(s, e)
    requires e.Enter? ==> !s.all[Touched(s, e)].deleted
    ensures var t, k := Next(s, e), Touched(s, e);
      |t.all| == |s.all| && t.all == s.all[k := t.all[k]] && !Exposed(t.all[k])
  {
  }

  lemma EnteredLive(s: State, id: Id)
    requires Inv(s) && id in s.sessions
    ensures var k := s.sessions[id]; k < |s.all| && s.all[k].id == id && !s.all[k].deleted
  {
  }

  lemma PatientSession(s: State, e: Step, k: nat)
    requires Inv(s) && Enabled(s, e) && k < |s.all| && !Exposed(s.all[k]) && !Overtakes(s, e)
    requires NoneExposed(s)
    ensures k < |Next(s, e).all| && !Exposed(Next(s, e).all[k])
  {
    hide Owed, Placed, Once, Exposed;
    if !e.Start? && (e.Enter? || e.DeleteBegin? ==> e.id in s.sessions) {
      assert Once(s.all[Touched(s, e)]);
      if e.Enter? {
        EnteredLive(s, e.id);
      }
      TouchedSafe(s, e);
    }
  }

  lemma NewIsSafe(s: State, e: Step, k: nat)
    requires Enabled(s, e) && |s.all| <= k < |Next(s, e).all|
    ensures !Exposed(Next(s, e).all[k])
  {
  }

  lemma WipeIsSafe(s: State, k: nat)
    requires Inv(s) && Enabled(s, Wipe(k)) && !Exposed(s.all[k])
    ensures s.all[k].busy == 0
  {
    hide Owed, Placed;
    assert Once(s.all[k]);
  }

  // A run in which no call overtakes a last exit never removes a directory
  // under a call in flight.
  lemma {:induction false} PatientRunsAreSafe(s: State, es: seq<Step>, k: nat)
    requires Inv(s) && NoneExposed(s) && Run(s, es) && Patient(s, es)
    ensures !Harms(s, es, k)
    decreases |es|
  {
    hide Inv, Next, Enabled, Overtakes, NoneExposed;
    if es != [] {
      PatientStep(s, es[0]);
      InvKept(s, es[0]);
      PatientRunsAreSafe(Next(s, es[0]), es[1..], k);
    }
  }

  // The shortest harmful run: one call ends as another begins, and the session
  // is deleted before the first looks at deleted.
  const OVERTAKEN := State([Session("a", 1, 1, false, 0, false, 0, 0, 0)], map["a" := 0], map[], None)

  function OneSession(x: Session, lock: Option<nat>): State {
    State([x], map[], map["a" := 0], lock)
  }

  lemma HarmAfterOvertaking()
    ensures var es := [DeleteBegin("a"), DeleteEnd, Check(0), Claim(0), Wipe(0)];
      Run(OVERTAKEN, es) && Harms(OVERTAKEN, es, 0)
  {
    hide Run, Harms;
    var s1 := OneSession(Session("a", 1, 1, true, 0, false, 0, 0, 0), Some(0));
    assert Next(OVERTAKEN, DeleteBegin("a")) == s1;
    HarmAfterDeleting();
    var rest := [DeleteEnd, Check(0), Claim(0), Wipe(0)];
    Prefixed(OVERTAKEN, DeleteBegin("a"), rest, 0);
    assert [DeleteBegin("a")] + rest == [DeleteBegin("a"), DeleteEnd, Check(0), Claim(0), Wipe(0)];
  }

  lemma HarmAfterDeleting()
    ensures var s := OneSession(Session("a", 1, 1, true, 0, false, 0, 0, 0), Some(0));
      var es := [DeleteEnd, Check(0), Claim(0), Wipe(0)];
      Run(s, es) && Harms(s, es, 0)
  {
    hide Run, Harms;
    var s1 := OneSession(Session("a", 1, 1, true, 0, false, 0, 0, 0), Some(0));
    var s2 := s1.(lock := None);
    var s3 := OneSession(Session("a", 1, 0, true, 1, false, 0, 0, 0), None);
    assert Next(s1, DeleteEnd) == s2 && Next(s2, Check(0)) == s3;
    HarmAfterChecking();
    var last := [Claim(0), Wipe(0)];
    Prefixed(s2, Check(0), last, 0);
    Prefixed(s1, DeleteEnd, [Check(0)] + last, 0);
    assert [DeleteEnd] + ([Check(0)] + last) == [DeleteEnd, Check(0), Claim(0), Wipe(0)];
  }

  lemma HarmAfterChecking()
    ensures var s := OneSession(Session("a", 1, 0, true, 1, false, 0, 0, 0), None);
      Run(s, [Claim(0), Wipe(0)]) && Harms(s, [Claim(0), Wipe(0)], 0)
  {
    hide Run, Harms;
    var s3 := OneSession(Session("a", 1, 0, true, 1, false, 0, 0, 0), None);
    var s4 := OneSession(Session("a", 1, 0, true, 0, true, 1, 0, 0), None);
    assert Next(s3, Claim(0)) == s4;
    LastStep(s4, 0);
    Prefixed(s3, Claim(0), [Wipe(0)], 0);
    assert [Claim(0)] + [Wipe(0)] == [Claim(0), Wipe(0)];
  }

  lemma OvertakingIsReachable()
    ensures var es := [Start("a", 1), Enter("a"), Exit(0), Enter("a")];
      Run(INITIAL, es) && After(INITIAL, es) == OVERTAKEN
  {
    var s1 := Next(INITIAL, Start("a", 1));
    var s2 := Next(s1, Enter("a"));
    var s3 := Next(s2, Exit(0));
    var s4 := Next(s3, Enter("a"));
    assert s4 == OVERTAKEN;
    assert Run(s4, []) && After(s4, []) == s4;
    var es := [Start("a", 1), Enter("a"), Exit(0), Enter("a")];
    assert es[1..][1..][1..] == [Enter("a")] && es[1..][1..] == [Exit(0), Enter("a")];
  }

  lemma {:induction false} RunExtends(s: State, es: seq<Step>, e: Step)
    requires Run(s, es) && Enabled(After(s, es), e)
    ensures Run(s, es + [e]) && After(s, es + [e]) == Next(After(s, es), e)
    decreases |es|
  {
    hide Next, Enabled;
    if es == [] {
      assert es + [e] == [e];
      assert Run(Next(s, e), []) && After(Next(s, e), []) == Next(s, e);
    } else {
      RunExtends(Next(s, es[0]), es[1..], e);
      assert (es + [e])[1..] == es[1..] + [e];
    }
  }

  // ----------------------------------------------------- the code, in place

  datatype Started = Running(k: nat) | StillDeleting | TooMany

  // evictIdle's condition on a registered session.
  predicate Idle(s: State, id: Id, expired: set<nat>) {
    id in s.sessions && s.sessions[id] in expired && s.sessions[id] < |s.all| && s.all[s.sessions[id]].busy == 0
  }

  class Manager {
    var all: seq<Session>
    var sessions: map<Id, nat>
    var draining: map<Id, nat>
    var lock: Option<nat>

    constructor ()
      ensures View() == INITIAL
    {
      all, sessions, draining, lock := [], map[], map[], None;
    }

    function View(): State
      reads this
    {
      State(all, sessions, draining, lock)
    }

    // The map section of StartHLS.
    method StartHLS(id: Id, limit: nat) returns (r: Started)
      requires Enabled(View(), Start(id, limit))
      modifies this
      ensures View() == Next(old(View()), Start(id, limit))
      ensures r.StillDeleting? <==> id !in old(sessions) && id in old(draining)
      ensures r.Running? <==> id in sessions && r == Running(sessions[id])
    {
      if id !in sessions {
        if id in draining {
          return StillDeleting;
        }
        if |sessions| >= limit {
          return TooMany;
        }
        all, sessions := all + [Fresh(id)], sessions[id := |all|];
      }
      r := Running(sessions[id]);
    }

    // The locked section of HLSFile.
    method EnterHLS(id: Id) returns (found: Option<nat>)
      requires Enabled(View(), Enter(id))
      modifies this
      ensures View() == Next(old(View()), Enter(id))
      ensures found == if id in sessions then Some(sessions[id]) else None
    {
      if id !in sessions {
        return None;
      }
      var k := sessions[id];
      all := all[k := all[k].(busy := all[k].busy + 1)];
      found := Some(k);
    }

    // The deferred exit of HLSFile: Add(-1), then, on zero, Load.
    method ExitHLS(k: nat) returns (zero: bool)
      requires Enabled(View(), Exit(k))
      modifies this
      ensures View() == Next(old(View()), Exit(k)) && zero == (all[k].busy == 0)
    {
      var x := all[k];
      zero := x.busy == 1;
      all := all[k := x.(busy := x.busy - 1, exiting := if zero then x.exiting + 1 else x.exiting)];
    }

    method CheckDeleted(k: nat) returns (remove: bool)
      requires Enabled(View(), Check(k))
      modifies this
      ensures View() == Next(old(View()), Check(k)) && remove == old(all[k].deleted)
    {
      var x := all[k];
      remove := x.deleted;
      all := all[k := x.(exiting := x.exiting - 1, calling := if remove then x.calling + 1 else x.calling)];
    }

    // DeleteHLS: under the lock up to deleted.Store, then inFlight.Load.
    method DeleteFirst(id: Id) returns (found: bool)
      requires Enabled(View(), DeleteBegin(id))
      modifies this
      ensures View() == Next(old(View()), DeleteBegin(id)) && found == (id in old(sessions))
    {
      found := id in sessions;
      if found {
        var k := sessions[id];
        sessions := sessions - {id};
        draining := draining[id := k];
        all := all[k := all[k].(deleted := true)];
        lock := Some(k);
      }
    }

    method DeleteSecond() returns (idle: bool)
      requires Enabled(View(), DeleteEnd)
      modifies this
      ensures View() == Next(old(View()), DeleteEnd)
      ensures idle == (old(all)[old(lock).value].busy == 0)
    {
      var k := lock.value;
      idle := all[k].busy == 0;
      if idle {
        all := all[k := all[k].(calling := all[k].calling + 1)];
      }
      lock := None;
    }

    // Park one idle session for removal.
    method Retire(id: Id)
      requires Inv(View()) && lock.None? && id in sessions && sessions[id] < |all| && all[sessions[id]].busy == 0
      modifies this
      ensures var k := old(sessions)[id];
        && old(all)[k].id == id && Enabled(old(View()), Evict(k)) && View() == Next(old(View()), Evict(k))
        && Inv(View()) && lock.None? && |all| == |old(all)|
        && forall other :: other in old(sessions) && other != id ==>
             && other in sessions && sessions[other] == old(sessions)[other]
             && (sessions[other] < |all| ==> all[sessions[other]] == old(all)[sessions[other]])
    {
      hide Inv, Next, Enabled;
      EvictKeeps(View(), id);
      var k := sessions[id];
      var x := all[k];
      sessions, draining := sessions - {id}, draining[id := k];
      all := all[k := x.(deleted := true, calling := x.calling + 1)];
    }

    // evictIdle's locked scan; expired are the sessions past their idle time. It
    // is a run of Evict steps that takes exactly the idle expired sessions.
    method EvictIdle(expired: set<nat>) returns (victims: set<Id>, ghost es: seq<Step>)
      requires Inv(View()) && lock.None?
      modifies this
      ensures Inv(View()) && Run(old(View()), es) && View() == After(old(View()), es)
      ensures forall e :: e in es ==> e.Evict? && e.k < |old(all)| && old(all)[e.k].id in victims
      ensures forall id :: id in victims <==> id in old(sessions) && Idle(old(View()), id, expired)
    {
      hide Next, After, Run, Inv, Enabled;
      victims, es := {}, [];
      StartsHere(View());
      RegisteredSessions(View());
      ghost var before := View();
      var todo := sessions.Keys;
      while todo != {}
        invariant todo <= before.sessions.Keys
        invariant Inv(View()) && lock.None? && |all| == |before.all|
        invariant forall id :: id in todo ==>
          && id in sessions && sessions[id] == before.sessions[id] && sessions[id] < |all|
          && all[sessions[id]] == before.all[sessions[id]]
        invariant Run(before, es) && View() == After(before, es)
        invariant forall e :: e in es ==> e.Evict? && e.k < |before.all| && before.all[e.k].id in victims
        invariant forall id :: id in victims <==> id !in todo && Idle(before, id, expired)
      {
        var id :| id in todo;
        todo := todo - {id};
        var k := sessions[id];
        if all[k].busy == 0 && k in expired {
          Retire(id);
          RunExtends(before, es, Evict(k));
          victims, es := victims + {id}, es + [Evict(k)];
        }
      }
    }

    // The CAS of removeDeletedSession.
    method ClaimRemoval(k: nat) returns (won: bool)
      requires Enabled(View(), Claim(k))
      modifies this
      ensures View() == Next(old(View()), Claim(k)) && won == !old(all[k].removed)
    {
      var x := all[k].(calling := all[k].calling - 1);
      won := !x.removed;
      all := all[k := if won then x.(removed := true, wiping := x.wiping + 1) else x];
    }
  }

  lemma StartsHere(s: State)
    ensures Run(s, []) && After(s, []) == s
  {
  }

  lemma RegisteredSessions(s: State)
    requires Inv(s)
    ensures forall id :: id in s.sessions ==> s.sessions[id] < |s.all| && s.all[s.sessions[id]].id == id
  {
  }

  // Evict touches only its own session.
  lemma EvictKeeps(s: State, id: Id)
    requires Inv(s) && s.lock.None? && id in s.sessions && s.sessions[id] < |s.all| && s.all[s.sessions[id]].busy == 0
    ensures var k := s.sessions[id];
      var t := State(s.all[k := s.all[k].(deleted := true, calling := s.all[k].calling + 1)],
                                                    s.sessions - {id}, s.draining[id := k], None);
      && s.all[k].id == id && Enabled(s, Evict(k)) && Next(s, Evict(k)) == t && Inv(t)
      && forall other :: other in s.sessions && other != id ==> s.sessions[other] != k
  {
    hide Owed, Once;
    InvKept(s, Evict(s.sessions[id]));
  }
}
