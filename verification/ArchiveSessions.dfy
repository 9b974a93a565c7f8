// Pinning, replacing, evicting and destroying archive sessions
// (internal/api/archive.go): one atomic step per critical section.
module ArchiveSessions {
  type Key = string

  // hasDir is tmpDir != "". The last three count threads and their effect:
  // closing is a last release between its two sections, doomed are calls of
  // archiveDestroySession not made yet, destroyed those made. abandoned marks a
  // session without a directory that was replaced.
  datatype Session = Session(key: Key, hasDir: bool, refs: nat, retired: bool, abandoned: bool,
                             closing: nat, doomed: nat, destroyed: nat)

  // Sessions are numbered in the order of creation; live is archiveSessions,
  // retired is archiveRetired.
  datatype State = State(all: seq<Session>, live: map<Key, nat>, retired: set<nat>)

  datatype Step =
    | Register(key: Key, hasDir: bool)
    | Acquire(key: Key)
    | Release(k: nat)
    | ReleaseEnd(k: nat)
    | Evict(k: nat)
    | Destroy(k: nat)

  const INITIAL := State([], map[], {})

  predicate Registered(s: State, k: nat) {
    k < |s.all| && s.all[k].key in s.live && s.live[s.all[k].key] == k
  }

  predicate Enabled(s: State, e: Step) {
    match e
    case Register(key, _) => key in s.live ==> s.live[key] < |s.all|
    case Acquire(key) => key in s.live ==> s.live[key] < |s.all|
    case Release(k) => k < |s.all| && s.all[k].refs > 0
    case ReleaseEnd(k) => k < |s.all| && s.all[k].closing > 0
    case Evict(k) => Registered(s, k) && s.all[k].refs == 0
    case Destroy(k) => k < |s.all| && s.all[k].doomed > 0
  }

  // A registered session displaced by a new one of its key: without a directory
  // it is let go, idle it is destroyed at once, in use it is retired.
  function Displaced(x: Session): Session {
    if !x.hasDir then x.(abandoned := true)
    else if x.refs == 0 then x.(doomed := x.doomed + 1)
    else x.(retired := true)
  }

  function Next(s: State, e: Step): State
    requires Enabled(s, e)
  {
    match e
    case Register(key, hasDir) =>
      var added := Session(key, hasDir, 0, false, false, 0, 0, 0);
      if key !in s.live then State(s.all + [added], s.live[key := |s.all|], s.retired)
      else
        var was := s.live[key];
        var x := Displaced(s.all[was]);
        State(s.all[was := x] + [added], s.live[key := |s.all|], if x.retired then s.retired + {was} else s.retired)
    case Acquire(key) =>
      if key !in s.live then s
      else var k := s.live[key]; s.(all := s.all[k := s.all[k].(refs := s.all[k].refs + 1)])
    case Release(k) =>
      var x := s.all[k];
      var closing := if x.retired && x.refs == 1 then x.closing + 1 else x.closing;
      s.(all := s.all[k := x.(refs := x.refs - 1, closing := closing)])
    case ReleaseEnd(k) =>
      var x := s.all[k];
      s.(all := s.all[k := x.(closing := x.closing - 1, doomed := x.doomed + 1)], retired := s.retired - {k})
    case Evict(k) =>
      s.(all := s.all[k := s.all[k].(doomed := s.all[k].doomed + 1)], live := s.live - {s.all[k].key})
    case Destroy(k) =>
      var x := s.all[k];
      s.(all := s.all[k := x.(doomed := x.doomed - 1, destroyed := x.destroyed + 1)])
  }

  // ---------------------------------------------------------------- invariant

  function Ends(x: Session): nat {
    x.closing + x.doomed + x.destroyed
  }

  // What holds of session k, given whether it is registered and in the retired
  // set: at most one destruction is ever under way, and only of an idle session
  // nobody can reach.
  ghost predicate Fine(x: Session, registered: bool, listed: bool) {
    && Ends(x) <= 1
    && (registered ==> Ends(x) == 0 && !x.retired && !x.abandoned)
    && (Ends(x) > 0 ==> x.refs == 0)
    && (x.retired ==> x.hasDir && !x.abandoned && (Ends(x) == 0 <==> x.refs > 0))
    && (listed <==> x.retired && x.refs + x.closing > 0)
    && (x.abandoned ==> !x.hasDir && Ends(x) == 0)
    && (!registered && !x.retired && !x.abandoned ==> x.doomed + x.destroyed == 1)
    && (x.closing > 0 ==> x.retired)
  }

  ghost predicate Inv(s: State) {
    && (forall key :: key in s.live ==> s.live[key] < |s.all| && s.all[s.live[key]].key == key)
    && (forall k :: k in s.retired ==> k < |s.all|)
    && (forall k :: 0 <= k < |s.all| ==> Fine(s.all[k], Registered(s, k), k in s.retired))
  }

  // A step that changes session k alone, without moving it.
  lemma OneChanges(s: State, t: State, k: nat, x: Session)
    requires Inv(s) && k < |s.all| && t.live == s.live && t.all == s.all[k := x] && x.key == s.all[k].key
    requires forall j :: j != k ==> (j in t.retired <==> j in s.retired)
    requires Fine(x, Registered(s, k), k in t.retired)
    ensures Inv(t)
  {
    hide Fine;
    assert forall j :: 0 <= j < |s.all| ==> Registered(t, j) == Registered(s, j);
  }

  lemma InPlaceKeeps(s: State, e: Step)
    requires Inv(s) && Enabled(s, e) && !e.Register? && !e.Evict?
    ensures Inv(Next(s, e))
  {
    match e
    case Acquire(key) =>
      if key in s.live {
        OneChanges(s, Next(s, e), s.live[key], Next(s, e).all[s.live[key]]);
      }
    case Release(k) => OneChanges(s, Next(s, e), k, Next(s, e).all[k]);
    case ReleaseEnd(k) => OneChanges(s, Next(s, e), k, Next(s, e).all[k]);
    case Destroy(k) => OneChanges(s, Next(s, e), k, Next(s, e).all[k]);
  }

  lemma EvictKeeps(s: State, k: nat)
    requires Inv(s) && Enabled(s, Evict(k))
    ensures Inv(Next(s, Evict(k)))
  {
    hide Fine;
    EvictedFine(s.all[k], k in s.retired);
    var t := Next(s, Evict(k));
    assert forall j :: 0 <= j < |s.all| && j != k ==> Registered(t, j) == Registered(s, j);
    assert !Registered(t, k) && t.all[k] == s.all[k].(doomed := 1);
  }

  lemma EvictedFine(x: Session, listed: bool)
    requires Fine(x, true, listed) && x.refs == 0
    ensures x.doomed == 0 && Fine(x.(doomed := 1), false, listed)
  {
  }

  lemma DisplacedFine(x: Session, listed: bool)
    requires Fine(x, true, listed)
    ensures Displaced(x).key == x.key && Fine(Displaced(x), false, Displaced(x).retired) && !listed
  {
  }

  lemma FreshKeeps(s: State, key: Key, hasDir: bool)
    requires Inv(s) && Enabled(s, Register(key, hasDir)) && key !in s.live
    ensures Inv(Next(s, Register(key, hasDir)))
  {
    hide Fine, Displaced;
    var t := Next(s, Register(key, hasDir));
    NewIsFine(key, hasDir);
    assert forall j :: 0 <= j < |s.all| ==> Registered(t, j) == Registered(s, j);
  }

  // Nobody but the displaced session and the new one is affected.
  lemma OthersStay(s: State, key: Key, hasDir: bool)
    requires Inv(s) && Enabled(s, Register(key, hasDir)) && key in s.live
    ensures var t := Next(s, Register(key, hasDir)); var was := s.live[key];
      forall j :: 0 <= j < |s.all| && j != was ==>
        t.all[j] == s.all[j] && Registered(t, j) == Registered(s, j) && (j in t.retired <==> j in s.retired)
  {
    hide Fine, Displaced;
  }

  lemma DisplacedKeeps(s: State, key: Key, hasDir: bool)
    requires Inv(s) && Enabled(s, Register(key, hasDir)) && key in s.live
    ensures Inv(Next(s, Register(key, hasDir)))
  {
    hide Fine, Displaced;
    var t := Next(s, Register(key, hasDir));
    var was := s.live[key];
    OthersStay(s, key, hasDir);
    NewIsFine(key, hasDir);
    DisplacedFine(s.all[was], was in s.retired);
    assert !Registered(t, was);
  }

  lemma NewIsFine(key: Key, hasDir: bool)
    ensures Fine(Session(key, hasDir, 0, false, false, 0, 0, 0), true, false)
  {
  }

  lemma StepKeeps(s: State, e: Step)
    requires Inv(s) && Enabled(s, e)
    ensures Inv(Next(s, e))
  {
    hide Inv, Enabled, Next;
    match e
    case Register(key, hasDir) =>
      if key in s.live {
        DisplacedKeeps(s, key, hasDir);
      } else {
        FreshKeeps(s, key, hasDir);
      }
    case Evict(k) => EvictKeeps(s, k);
    case _ => InPlaceKeeps(s, e);
  }

  // --------------------------------------------------------------------- runs

  ghost predicate Run(s: State, es: seq<Step>)
    decreases |es|
  {
    es == [] || (Enabled(s, es[0]) && Run(Next(s, es[0]), es[1..]))
  }

  ghost function After(s: State, es: seq<Step>): State
    requires Run(s, es)
    decreases |es|
  {
    if es == [] then s else After(Next(s, es[0]), es[1..])
  }

  lemma {:induction false} RunKeeps(s: State, es: seq<Step>)
    requires Inv(s) && Run(s, es)
    ensures Inv(After(s, es))
    decreases |es|
  {
    hide Inv, Enabled;
    if es != [] {
      StepKeeps(s, es[0]);
      RunKeeps(Next(s, es[0]), es[1..]);
    }
  }

  // Over every interleaving a session is destroyed at most once, with nobody
  // pinning it and out of the map; and once no thread has anything left to do
  // for it, it has been destroyed exactly if it is out of the map, unpinned and
  // was not let go for want of a directory.
  lemma EveryRunDestroysOnce(es: seq<Step>, k: nat)
    requires Run(INITIAL, es) && k < |After(INITIAL, es).all|
    ensures var s := After(INITIAL, es); var x := s.all[k];
      && x.destroyed <= 1
      && (x.destroyed + x.doomed > 0 ==> x.refs == 0 && !Registered(s, k))
      && (x.closing + x.doomed == 0 ==>
           (x.destroyed == 1 <==> !Registered(s, k) && x.refs == 0 && !x.abandoned))
      && (k in s.retired <==> x.retired && x.refs + x.closing > 0)
  {
    hide Run, After;
    RunKeeps(INITIAL, es);
  }

  // A destruction begins in exactly three ways: the eviction of an idle session,
  // the replacement of an idle session with a directory, and the last release of
  // a retired session.
  lemma WhenDestructionBegins(s: State, e: Step, k: nat)
    requires Inv(s) && Enabled(s, e) && k < |s.all| && Ends(s.all[k]) == 0
    ensures k < |Next(s, e).all|
    ensures var x := s.all[k];
      Ends(Next(s, e).all[k]) > 0 <==>
        || e == Evict(k)
        || (e.Register? && e.key == x.key && Registered(s, k) && x.hasDir && x.refs == 0)
        || (e == Release(k) && x.retired && x.refs == 1)
  {
  }

  // From then on nobody can pin the session or find it again.
  lemma {:induction false} NeverBack(s: State, es: seq<Step>, k: nat)
    requires Inv(s) && Run(s, es) && k < |s.all| && Ends(s.all[k]) > 0
    ensures var t := After(s, es); k < |t.all| && Ends(t.all[k]) == 1 && t.all[k].refs == 0 && !Registered(t, k)
    decreases |es|
  {
    hide Enabled;
    if es != [] {
      StepKeeps(s, es[0]);
      StaysEnded(s, es[0], k);
      NeverBack(Next(s, es[0]), es[1..], k);
    }
  }

  lemma StaysEnded(s: State, e: Step, k: nat)
    requires Inv(s) && Enabled(s, e) && k < |s.all| && Ends(s.all[k]) > 0
    ensures k < |Next(s, e).all| && Ends(Next(s, e).all[k]) > 0
  {
  }

  // ------------------------------------------------------------------- pins

  function Found(s: State, e: Step, k: nat): bool {
    e.Acquire? && e.key in s.live && s.live[e.key] == k
  }

  // The acquires of a run that found session k, less its releases.
  ghost function Pins(s: State, es: seq<Step>, k: nat): int
    requires Run(s, es)
    decreases |es|
  {
    if es == [] then 0
    else (if Found(s, es[0], k) then 1 else if es[0] == Release(k) then -1 else 0) + Pins(Next(s, es[0]), es[1..], k)
  }

  // The calls of archiveDestroySession for session k in a run.
  function Removals(es: seq<Step>, k: nat): nat {
    if es == [] then 0 else (if es[0] == Destroy(k) then 1 else 0) + Removals(es[1..], k)
  }

  function RefsOf(s: State, k: nat): nat {
    if k < |s.all| then s.all[k].refs else 0
  }

  function DestroyedOf(s: State, k: nat): nat {
    if k < |s.all| then s.all[k].destroyed else 0
  }

  lemma StepCounts(s: State, e: Step, k: nat)
    requires Inv(s) && Enabled(s, e)
    ensures RefsOf(Next(s, e), k) == RefsOf(s, k) + if Found(s, e, k) then 1 else if e == Release(k) then -1 else 0
    ensures DestroyedOf(Next(s, e), k) == DestroyedOf(s, k) + if e == Destroy(k) then 1 else 0
  {
    hide Fine;
  }

  lemma {:induction false} RunCounts(s: State, es: seq<Step>, k: nat)
    requires Inv(s) && Run(s, es)
    ensures RefsOf(After(s, es), k) == RefsOf(s, k) + Pins(s, es, k)
    ensures DestroyedOf(After(s, es), k) == DestroyedOf(s, k) + Removals(es, k)
    decreases |es|
  {
    hide Inv, Next, Enabled, RefsOf, DestroyedOf, Found;
    if es != [] {
      StepCounts(s, es[0], k);
      StepKeeps(s, es[0]);
      RunCounts(Next(s, es[0]), es[1..], k);
    }
  }

  // Over every interleaving the pins of a session are the acquires that found it
  // and have not been released; while there is one, the session is neither being
  // destroyed nor has been, and it stays reachable or retired; and it has been
  // destroyed as often as archiveDestroySession was called for it, once at most.
  lemma NobodyReadsADestroyedSession(es: seq<Step>, k: nat)
    requires Run(INITIAL, es) && k < |After(INITIAL, es).all|
    ensures var s := After(INITIAL, es); var x := s.all[k];
      && x.refs == Pins(INITIAL, es, k)
      && x.destroyed == Removals(es, k) <= 1
      && (Pins(INITIAL, es, k) > 0 ==>
           x.closing + x.doomed + x.destroyed == 0 && (Registered(s, k) || k in s.retired || !x.hasDir))
  {
    hide Run, After, Pins, Removals;
    RunKeeps(INITIAL, es);
    RunCounts(INITIAL, es, k);
    assert Inv(INITIAL);
  }

  // The map changes in two ways only: a registration puts the new session under
  // its key, and an eviction takes the session out.
  lemma WhoIsFound(s: State, e: Step, key: Key)
    requires Inv(s) && Enabled(s, e)
    ensures var t := Next(s, e);
      if e.Register? && e.key == key then
        && key in t.live && t.live[key] == |s.all| && |t.all| == |s.all| + 1
        && t.all[|s.all|] == Session(key, e.hasDir, 0, false, false, 0, 0, 0)
      else if e.Evict? && s.all[e.k].key == key then key !in t.live
      else (key in t.live <==> key in s.live) && (key in s.live ==> t.live[key] == s.live[key])
  {
    hide Fine;
  }

  // ----------------------------------------------------- the code, in place

  class Registry {
    var all: seq<Session>
    var live: map<Key, nat>
    var retired: set<nat>

    constructor ()
      ensures View() == INITIAL
    {
      all, live, retired := [], map[], {};
    }

    function View(): State
      reads this
    {
      State(all, live, retired)
    }

    // archiveRetireLocked.
    method RetireLocked(k: nat) returns (destroyNow: bool)
      requires k < |all| && all[k].hasDir
      modifies this
      ensures live == old(live) && destroyNow == (old(all)[k].refs == 0)
      ensures all == old(all)[k := if destroyNow then old(all)[k] else Displaced(old(all)[k])]
      ensures retired == if destroyNow then old(retired) else old(retired) + {k}
    {
      if all[k].refs == 0 {
        return true;
      }
      all := all[k := all[k].(retired := true)];
      retired := retired + {k};
      destroyNow := false;
    }

    // The registering section of archiveBuildAndRegister; the destruction it
    // may call for is left doomed.
    method Register(key: Key, hasDir: bool) returns (destroyOld: bool)
      requires Inv(View())
      modifies this
      ensures View() == Next(old(View()), Step.Register(key, hasDir))
      ensures destroyOld <==> key in old(live) && old(all[live[key]]).hasDir && old(all[live[key]]).refs == 0
      ensures live == old(live)[key := |old(all)|] && |all| == |old(all)| + 1
    {
      var replaced := key in live;
      var was := if replaced then live[key] else 0;
      ghost var x := if replaced then all[was] else Session(key, hasDir, 0, false, false, 0, 0, 0);
      assert replaced ==> Fine(x, true, was in retired);
      destroyOld := false;
      if replaced {
        if all[was].hasDir {
          destroyOld := RetireLocked(was);
          if destroyOld {
            all := all[was := all[was].(doomed := all[was].doomed + 1)];
          }
        } else {
          all := all[was := all[was].(abandoned := true)];
        }
      }
      live := live[key := |all|];
      all := all + [Session(key, hasDir, 0, false, false, 0, 0, 0)];
    }

    // archiveAcquireSession.
    method AcquireSession(key: Key) returns (found: bool)
      requires Enabled(View(), Acquire(key))
      modifies this
      ensures View() == Next(old(View()), Acquire(key)) && found == (key in live)
      ensures found ==> all[live[key]] == old(all[live[key]]).(refs := old(all[live[key]].refs) + 1)
    {
      found := key in live;
      if found {
        var k := live[key];
        all := all[k := all[k].(refs := all[k].refs + 1)];
      }
    }

    // The section of release under the session's mutex.
    method ReleaseFirst(k: nat) returns (last: bool)
      requires Enabled(View(), Release(k))
      modifies this
      ensures View() == Next(old(View()), Release(k))
      ensures last == (all[k].retired && all[k].refs == 0)
    {
      var x := all[k].(refs := all[k].refs - 1);
      last := x.retired && x.refs == 0;
      all := all[k := if last then x.(closing := x.closing + 1) else x];
    }

    // Take an idle session out of the map to destroy it.
    method Take(key: Key)
      requires Inv(View()) && key in live && live[key] < |all| && all[live[key]].refs == 0
      modifies this
      ensures var k := old(live)[key];
        && old(all)[k].key == key && Enabled(old(View()), Evict(k)) && View() == Next(old(View()), Evict(k))
        && |all| == |old(all)| && Inv(View())
        && forall other :: other in old(live) && other != key ==>
             other in live && live[other] == old(live)[other] &&
               (live[other] < |all| ==> all[live[other]] == old(all)[live[other]])
    {
      hide Inv, Next, Enabled;
      EvictAlone(View(), key);
      var k := live[key];
      all := all[k := all[k].(doomed := all[k].doomed + 1)];
      live := live - {key};
    }

    // archiveEvict: every idle session past its time, in one locked scan.
    method EvictExpired(expired: set<nat>) returns (victims: set<Key>, ghost es: seq<Step>)
      requires Inv(View())
      modifies this
      ensures Inv(View()) && Run(old(View()), es) && View() == After(old(View()), es)
      ensures forall e :: e in es ==> e.Evict? && e.k < |old(all)| && old(all)[e.k].key in victims
      ensures forall key :: key in victims <==> Idle(old(View()), key, expired)
    {
      hide Next, After, Run, Inv, Enabled;
      victims, es := {}, [];
      StartsHere(View());
      ghost var before := View();
      var todo := live.Keys;
      while todo != {}
        invariant todo <= before.live.Keys
        invariant Inv(View()) && |all| == |before.all|
        invariant forall key :: key in todo ==>
          key in live && live[key] == before.live[key] && live[key] < |all| && all[live[key]] == before.all[live[key]]
        invariant Run(before, es) && View() == After(before, es)
        invariant forall e :: e in es ==> e.Evict? && e.k < |before.all| && before.all[e.k].key in victims
        invariant forall key :: key in victims <==> key !in todo && Idle(before, key, expired)
      {
        var key :| key in todo;
        todo := todo - {key};
        var k := live[key];
        if all[k].refs == 0 && k in expired {
          Take(key);
          RunExtends(before, es, Evict(k));
          victims, es := victims + {key}, es + [Evict(k)];
        }
      }
    }
  }

  // archiveEvict's condition on a key.
  predicate Idle(s: State, key: Key, expired: set<nat>) {
    key in s.live && s.live[key] in expired && s.live[key] < |s.all| && s.all[s.live[key]].refs == 0
  }

  lemma StartsHere(s: State)
    requires Inv(s)
    ensures Run(s, []) && After(s, []) == s
    ensures forall key :: key in s.live ==> s.live[key] < |s.all| && s.all[s.live[key]].key == key
  {
  }

  lemma EvictAlone(s: State, key: Key)
    requires Inv(s) && key in s.live && s.live[key] < |s.all| && s.all[s.live[key]].refs == 0
    ensures var k := s.live[key];
      var t := State(s.all[k := s.all[k].(doomed := s.all[k].doomed + 1)], s.live - {key}, s.retired);
      && s.all[k].key == key && Enabled(s, Evict(k)) && Next(s, Evict(k)) == t && Inv(t)
      && forall other :: other in s.live && other != key ==> s.live[other] != k
  {
    hide Fine;
    EvictKeeps(s, s.live[key]);
  }

  lemma {:induction false} RunExtends(s: State, es: seq<Step>, e: Step)
    requires Run(s, es) && Enabled(After(s, es), e)
    ensures Run(s, es + [e]) && After(s, es + [e]) == Next(After(s, es), e)
    decreases |es|
  {
    hide Next, Enabled;
    if es == [] {
      assert es + [e] == [e];
      assert Run(Next(s, e), []) && After(Next(s, e), []) == Next(s, e);
    } else {
      RunExtends(Next(s, es[0]), es[1..], e);
      assert (es + [e])[1..] == es[1..] + [e];
    }
  }
}
