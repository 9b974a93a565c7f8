// The resizable FIFO semaphore of internal/media/slotsem.go. A ticket stands for
// one call of acquire, numbered in the order in which the calls take the lock.
module SlotSem {
  import opened Collections
  import opened Numbers

  type Ticket = nat

  // How many waiters grantLocked serves.
  function Served(held: int, queued: nat, limit: int): (n: nat)
    ensures n <= queued
    ensures held + n <= limit || n == 0
    ensures n == queued || held + n >= limit
  {
    if limit <= held then 0 else Min(queued, limit - held)
  }

  // ----------------------------------------------------- the code, in place

  class Semaphore {
    var held: int
    // Queued waiters, oldest first, and those handed a slot they have not noticed yet.
    var waiters: seq<Ticket>
    var granted: set<Ticket>

    constructor ()
      ensures held == 0 && waiters == [] && granted == {}
    {
      held, waiters, granted := 0, [], {};
    }

    method GrantLocked(limit: int)
      modifies this
      ensures var n := Served(old(held), old(|waiters|), limit);
        && held == old(held) + n && waiters == old(waiters)[n..]
        && granted == old(granted) + SetOf(old(waiters)[..n])
    {
      ghost var n := 0;
      while held < limit
        invariant 0 <= n <= Served(old(held), old(|waiters|), limit)
        invariant held == old(held) + n && waiters == old(waiters)[n..]
        invariant granted == old(granted) + SetOf(old(waiters)[..n])
        decreases |waiters|
      {
        if |waiters| == 0 {
          return;
        }
        assert old(waiters)[..n + 1] == old(waiters)[..n] + [waiters[0]];
        granted := granted + {waiters[0]};
        waiters := waiters[1..];
        held := held + 1;
        n := n + 1;
      }
    }

    // acquire up to where it either returns or starts to wait as ticket t.
    method Enter(t: Ticket, limit: int) returns (immediate: bool)
      modifies this
      ensures Queue(held, waiters, granted) == Entered(Queue(old(held), old(waiters), old(granted)), t, limit).0
      ensures immediate == Entered(Queue(old(held), old(waiters), old(granted)), t, limit).1
    {
      GrantLocked(limit);
      if held < limit && |waiters| == 0 {
        held := held + 1;
        return true;
      }
      waiters := waiters + [t];
      immediate := false;
    }

    // The ctx.Done branch of a waiting acquire.
    method Cancel(t: Ticket, limit: int)
      modifies this
      ensures Queue(held, waiters, granted) == Cancelled(Queue(old(held), old(waiters), old(granted)), t, limit)
    {
      if t in granted {
        granted := granted - {t};
        held := held - 1;
        GrantLocked(limit);
      } else {
        waiters := Without(waiters, t);
      }
    }

    // The two critical sections of release; the second runs only if the first
    // saw somebody queued.
    method ReleaseFirst() returns (queued: bool)
      modifies this
      ensures Queue(held, waiters, granted) == Returned(Queue(old(held), old(waiters), old(granted)))
      ensures queued == (old(waiters) != [])
    {
      if held > 0 {
        held := held - 1;
      }
      queued := |waiters| > 0;
    }

    method ReleaseSecond(limit: int)
      modifies this
      ensures Queue(held, waiters, granted) == Granted(Queue(old(held), old(waiters), old(granted)), limit)
    {
      GrantLocked(limit);
    }
  }

  // ------------------------------------------------- the same as functions

  datatype Queue = Queue(held: int, waiters: seq<Ticket>, granted: set<Ticket>)

  function Granted(q: Queue, limit: int): Queue {
    var n := Served(q.held, |q.waiters|, limit);
    Queue(q.held + n, q.waiters[n..], q.granted + SetOf(q.waiters[..n]))
  }

  function Entered(q: Queue, t: Ticket, limit: int): (Queue, bool) {
    var g := Granted(q, limit);
    if g.held < limit && g.waiters == [] then (g.(held := g.held + 1), true)
    else (g.(waiters := g.waiters + [t]), false)
  }

  function Without(ws: seq<Ticket>, t: Ticket): seq<Ticket> {
    if ws == [] then [] else if ws[0] == t then ws[1..] else [ws[0]] + Without(ws[1..], t)
  }

  function Cancelled(q: Queue, t: Ticket, limit: int): Queue {
    if t in q.granted then Granted(q.(granted := q.granted - {t}, held := q.held - 1), limit)
    else q.(waiters := Without(q.waiters, t))
  }

  function Returned(q: Queue): Queue {
    if q.held > 0 then q.(held := q.held - 1) else q
  }

  // ---------------------------------------------------------- all interleavings

  // holding: calls of acquire that returned and have not released; releasing:
  // releases between their two critical sections; log: tickets in the order in
  // which they were given a slot.
  datatype State = State(q: Queue, holding: set<Ticket>, releasing: nat, next: Ticket, log: seq<Ticket>)

  // Every step but Notice and Release carries the limit it read beforehand.
  datatype Step =
    | Acquire(limit: int)
    | Notice(t: Ticket)
    | Cancel(t: Ticket, limit: int)
    | Recheck(limit: int)
    | Release(t: Ticket)
    | Wake(limit: int)

  predicate Enabled(s: State, e: Step) {
    match e
    case Acquire(_) => true
    case Notice(t) => t in s.q.granted
    case Cancel(t, _) => t in s.q.granted || t in s.q.waiters
    case Recheck(_) => s.q.waiters != [] || s.q.granted != {}
    case Release(t) => t in s.holding
    case Wake(_) => s.releasing > 0
  }

  // The tickets a step of grantLocked takes off the queue.
  function Handed(q: Queue, limit: int): seq<Ticket> {
    q.waiters[..Served(q.held, |q.waiters|, limit)]
  }

  function Next(s: State, e: Step): State
    requires Enabled(s, e)
  {
    match e
    case Acquire(limit) =>
      var (q, immediate) := Entered(s.q, s.next, limit);
      State(q, if immediate then s.holding + {s.next} else s.holding, s.releasing, s.next + 1,
            s.log + Handed(s.q, limit) + if immediate then [s.next] else [])
    case Notice(t) => s.(q := s.q.(granted := s.q.granted - {t}), holding := s.holding + {t})
    case Cancel(t, limit) =>
      var returned := s.q.(granted := s.q.granted - {t}, held := s.q.held - 1);
      s.(q := Cancelled(s.q, t, limit), log := if t in s.q.granted then s.log + Handed(returned, limit) else s.log)
    case Recheck(limit) => s.(q := Granted(s.q, limit), log := s.log + Handed(s.q, limit))
    case Release(t) =>
      s.(q := Returned(s.q), holding := s.holding - {t},
         releasing := if s.q.waiters != [] then s.releasing + 1 else s.releasing)
    case Wake(limit) => s.(q := Granted(s.q, limit), releasing := s.releasing - 1, log := s.log + Handed(s.q, limit))
  }

  ghost predicate Increasing(ts: seq<Ticket>) {
    forall i, j :: 0 <= i < j < |ts| ==> ts[i] < ts[j]
  }

  // held counts exactly the slots given and not returned.
  ghost predicate Counted(s: State) {
    s.q.held == |s.q.granted| + |s.holding| && s.q.granted !! s.holding
  }

  // Slots went out in the order of arrival, to nobody who arrived after somebody
  // still queued.
  ghost predicate InOrder(s: State) {
    && (forall t :: t in s.q.granted + s.holding ==> t in s.log)
    && Increasing(s.log + s.q.waiters)
    && (forall t :: t in s.log + s.q.waiters ==> t < s.next)
  }

  ghost predicate Inv(s: State) {
    Counted(s) && InOrder(s)
  }

  // Under a limit that stays what it is, somebody waits only while every slot is
  // taken or a release is about to wake the queue.
  ghost predicate NoLostWakeup(s: State, limit: int) {
    s.q.waiters != [] ==> s.q.held >= limit || s.releasing > 0
  }

  const INITIAL := State(Queue(0, [], {}), {}, 0, 0, [])

  lemma {:induction false} DistinctCount(ts: seq<Ticket>)
    requires Increasing(ts)
    ensures |SetOf(ts)| == |ts|
  {
    if ts == [] {
      assert SetOf(ts) == {};
    } else {
      var init, last := ts[..|ts| - 1], ts[|ts| - 1];
      assert Increasing(init) by {
        assert forall i :: 0 <= i < |init| ==> init[i] == ts[i];
      }
      DistinctCount(init);
      assert forall i :: 0 <= i < |init| ==> init[i] < last;
      assert ts == init + [last];
      assert SetOf(ts) == SetOf(init) + {last};
    }
  }

  // What Increasing says about a concatenation.
  lemma Split(a: seq<Ticket>, b: seq<Ticket>)
    requires Increasing(a + b)
    ensures Increasing(a) && Increasing(b)
    ensures forall s, t :: s in a && t in b ==> s < t
  {
    var c := a + b;
    assert forall i :: 0 <= i < |a| ==> a[i] == c[i];
    assert forall i :: 0 <= i < |b| ==> b[i] == c[|a| + i];
    forall s, t | s in a && t in b
      ensures s < t
    {
      var i :| 0 <= i < |a| && a[i] == s;
      var j :| 0 <= j < |b| && b[j] == t;
      assert c[i] < c[|a| + j];
    }
  }

  lemma Join(a: seq<Ticket>, b: seq<Ticket>)
    requires Increasing(a) && Increasing(b)
    requires forall s, t :: s in a && t in b ==> s < t
    ensures Increasing(a + b)
  {
    var c := a + b;
    forall i, j | 0 <= i < j < |c|
      ensures c[i] < c[j]
    {
      if i < |a| <= j {
        assert c[i] in a && c[j] in b;
      }
    }
  }

  lemma Union(a: set<Ticket>, b: set<Ticket>)
    requires forall t :: t in b ==> t !in a
    ensures |a + b| == |a| + |b|
  {
    assert a !! b;
  }

  lemma HandedFirst(q: Queue, limit: int)
    ensures Handed(q, limit) + Granted(q, limit).waiters == q.waiters
  {
  }

  // grantLocked keeps the order: what it hands out moves from queue to log.
  lemma GrantOrder(q: Queue, log: seq<Ticket>, limit: int)
    requires Increasing(log + q.waiters)
    ensures log + Handed(q, limit) + Granted(q, limit).waiters == log + q.waiters
    ensures Increasing(Handed(q, limit))
    ensures forall t :: t in Handed(q, limit) ==> t !in log && t !in Granted(q, limit).waiters
    ensures forall t :: t in q.waiters ==> t !in log
  {
    hide Increasing, Handed, Granted;
    var hs, rest := Handed(q, limit), Granted(q, limit).waiters;
    HandedFirst(q, limit);
    assert log + hs + rest == log + q.waiters;
    Split(log + hs, rest);
    Split(log, hs);
    Split(log, q.waiters);
    assert forall t :: t in hs ==> t in log + hs;
  }

  // grantLocked keeps the count.
  lemma GrantKeeps(q: Queue, holding: set<Ticket>, log: seq<Ticket>, limit: int)
    requires q.held == |q.granted| + |holding| && q.granted !! holding
    requires (forall t :: t in q.granted + holding ==> t in log) && Increasing(log + q.waiters)
    ensures var g := Granted(q, limit); var more := log + Handed(q, limit);
      && g.held == |g.granted| + |holding| && g.granted !! holding
      && (forall t :: t in g.granted + holding ==> t in more)
      && more + g.waiters == log + q.waiters
  {
    hide Increasing;
    var hs := Handed(q, limit);
    GrantOrder(q, log, limit);
    DistinctCount(hs);
    Union(q.granted, SetOf(hs));
  }

  lemma WithoutDrops(ws: seq<Ticket>, t: Ticket)
    requires Increasing(ws)
    ensures Increasing(Without(ws, t))
    ensures forall u :: u in Without(ws, t) <==> u in ws && u != t
  {
    if ws != [] {
      Split([ws[0]], ws[1..]);
      assert ws == [ws[0]] + ws[1..];
      if ws[0] != t {
        WithoutDrops(ws[1..], t);
        Join([ws[0]], Without(ws[1..], t));
      }
    }
  }

  lemma {:induction false} Single(t: Ticket)
    ensures Increasing([t])
  {
  }

  lemma AcquireOrder(s: State, limit: int)
    requires Increasing(s.log + s.q.waiters) && forall t :: t in s.log + s.q.waiters ==> t < s.next
    ensures var r := Next(s, Acquire(limit)); r.log + r.q.waiters == s.log + s.q.waiters + [s.next]
    ensures Increasing(s.log + s.q.waiters + [s.next])
  {
    hide Increasing, Granted, Handed;
    GrantOrder(s.q, s.log, limit);
    Single(s.next);
    Join(s.log + s.q.waiters, [s.next]);
  }

  lemma AcquireCount(s: State, limit: int)
    requires Inv(s)
    ensures var r := Next(s, Acquire(limit));
      Counted(r) && forall t :: t in r.q.granted + r.holding ==> t in r.log
  {
    hide Increasing, Granted, Handed;
    GrantKeeps(s.q, s.holding, s.log, limit);
    NewToLog(s, limit);
    var g, more := Granted(s.q, limit), s.log + Handed(s.q, limit);
    Joins(g, s.holding, more, s.next);
  }

  lemma NewToLog(s: State, limit: int)
    requires InOrder(s)
    ensures s.next !in s.log + Handed(s.q, limit)
  {
    hide Increasing, Granted, Handed;
    GrantOrder(s.q, s.log, limit);
    var more := s.log + Handed(s.q, limit);
    assert forall t :: t in more ==> t in more + Granted(s.q, limit).waiters;
  }

  // A slot given to a call that was given none yet.
  lemma Joins(q: Queue, holding: set<Ticket>, log: seq<Ticket>, t: Ticket)
    requires q.held == |q.granted| + |holding| && q.granted !! holding && t !in log
    requires forall u :: u in q.granted + holding ==> u in log
    ensures q.held + 1 == |q.granted| + |holding + {t}| && q.granted !! holding + {t}
    ensures forall u :: u in q.granted + (holding + {t}) ==> u in log + [t]
  {
    assert t !in q.granted + holding;
    assert |holding + {t}| == |holding| + 1;
  }

  lemma AcquireKeeps(s: State, limit: int)
    requires Inv(s)
    ensures Inv(Next(s, Acquire(limit)))
  {
    hide Increasing, Counted, Next;
    AcquireOrder(s, limit);
    AcquireCount(s, limit);
    var r := Next(s, Acquire(limit));
    assert r.next == s.next + 1 by {
      NextTicket(s, limit);
    }
  }

  lemma NextTicket(s: State, limit: int)
    ensures Next(s, Acquire(limit)).next == s.next + 1
  {
  }

  // grantLocked run on q, whose granted are some of those of s.
  lemma GrantRunKeeps(s: State, q: Queue, limit: int, r: State)
    requires InOrder(s) && q.waiters == s.q.waiters && q.granted <= s.q.granted
    requires q.held == |q.granted| + |s.holding| && q.granted !! s.holding
    requires r.q == Granted(q, limit) && r.log == s.log + Handed(q, limit)
    requires r.holding == s.holding && r.next == s.next
    ensures Inv(r)
  {
    hide Increasing, Granted, Handed;
    GrantKeeps(q, s.holding, s.log, limit);
    assert r.log + r.q.waiters == s.log + s.q.waiters;
  }

  lemma CancelGrantedKeeps(s: State, t: Ticket, limit: int)
    requires Inv(s) && t in s.q.granted
    ensures Inv(Next(s, Cancel(t, limit)))
  {
    hide InOrder, Granted, Handed;
    var q := s.q.(granted := s.q.granted - {t}, held := s.q.held - 1);
    GrantRunKeeps(s, q, limit, Next(s, Cancel(t, limit)));
  }

  lemma CancelQueuedKeeps(s: State, t: Ticket, limit: int)
    requires Inv(s) && t in s.q.waiters && t !in s.q.granted
    ensures Inv(Next(s, Cancel(t, limit)))
  {
    hide Increasing;
    Split(s.log, s.q.waiters);
    WithoutDrops(s.q.waiters, t);
    Join(s.log, Without(s.q.waiters, t));
    var r := Next(s, Cancel(t, limit));
    assert forall u :: u in r.log + r.q.waiters ==> u in s.log + s.q.waiters;
  }

  lemma GrantStepKeeps(s: State, e: Step)
    requires Inv(s) && Enabled(s, e) && (e.Recheck? || e.Wake?)
    ensures Inv(Next(s, e))
  {
    hide InOrder, Granted, Handed;
    GrantRunKeeps(s, s.q, e.limit, Next(s, e));
  }

  lemma NoticeKeeps(s: State, t: Ticket)
    requires Inv(s) && t in s.q.granted
    ensures Inv(Next(s, Notice(t)))
  {
    hide Increasing;
    var r := Next(s, Notice(t));
    Moves(s.q.granted, s.holding, t);
    assert r.log + r.q.waiters == s.log + s.q.waiters;
  }

  lemma Moves(granted: set<Ticket>, holding: set<Ticket>, t: Ticket)
    requires granted !! holding && t in granted
    ensures granted - {t} !! holding + {t}
    ensures |granted - {t}| + |holding + {t}| == |granted| + |holding|
    ensures granted - {t} + (holding + {t}) == granted + holding
  {
  }

  lemma ReleaseKeeps(s: State, t: Ticket)
    requires Inv(s) && t in s.holding
    ensures Inv(Next(s, Release(t)))
  {
    hide Increasing;
    var r := Next(s, Release(t));
    assert |r.holding| == |s.holding| - 1;
  }

  lemma StepKeeps(s: State, e: Step)
    requires Inv(s) && Enabled(s, e)
    ensures Inv(Next(s, e))
  {
    hide Inv, Next;
    match e
    case Acquire(limit) => AcquireKeeps(s, limit);
    case Cancel(t, limit) =>
      if t in s.q.granted {
        CancelGrantedKeeps(s, t, limit);
      } else {
        CancelQueuedKeeps(s, t, limit);
      }
    case Recheck(_) => GrantStepKeeps(s, e);
    case Wake(_) => GrantStepKeeps(s, e);
    case Notice(t) => NoticeKeeps(s, t);
    case Release(t) => ReleaseKeeps(s, t);
  }

  // No step raises held above the limit it read.
  lemma NeverAboveLimit(s: State, e: Step)
    requires Inv(s) && Enabled(s, e)
    ensures Next(s, e).q.held <= s.q.held || (!e.Notice? && !e.Release? && Next(s, e).q.held <= e.limit)
  {
    hide Increasing;
  }

  // While the limit stays what it is, nobody is left queued beside a free slot
  // that no release is about to hand on.
  lemma NoWaiterForgotten(s: State, e: Step, limit: int)
    requires Inv(s) && Enabled(s, e) && NoLostWakeup(s, limit)
    requires !e.Notice? && !e.Release? ==> e.limit == limit
    ensures NoLostWakeup(Next(s, e), limit)
  {
    hide Increasing;
    if e.Cancel? && e.t !in s.q.granted {
      Split(s.log, s.q.waiters);
      WithoutDrops(s.q.waiters, e.t);
    }
  }

  // ------------------------------------------------------------------- runs

  ghost predicate Run(s: State, es: seq<Step>)
    decreases |es|
  {
    es == [] || (Enabled(s, es[0]) && Run(Next(s, es[0]), es[1..]))
  }

  ghost function After(s: State, es: seq<Step>): State
    requires Run(s, es)
    decreases |es|
  {
    if es == [] then s else After(Next(s, es[0]), es[1..])
  }

  // Grants are never taken back or reordered: a step only appends to the log.
  lemma LogGrows(s: State, e: Step)
    requires Enabled(s, e)
    ensures s.log <= Next(s, e).log
  {
  }

  lemma {:induction false} RunKeeps(s: State, es: seq<Step>)
    requires Inv(s) && Run(s, es)
    ensures Inv(After(s, es)) && s.log <= After(s, es).log
    decreases |es|
  {
    hide Inv, Next;
    if es != [] {
      StepKeeps(s, es[0]);
      LogGrows(s, es[0]);
      RunKeeps(Next(s, es[0]), es[1..]);
    }
  }

  // For every interleaving: held is the number of slots given and not returned,
  // and slots were given in the order of arrival.
  lemma EveryRunIsFair(es: seq<Step>)
    requires Run(INITIAL, es)
    ensures var s := After(INITIAL, es);
      && s.q.held == |s.q.granted| + |s.holding|
      && Increasing(s.log)
      && (forall given, queued :: given in s.log && queued in s.q.waiters ==> given < queued)
  {
    hide Increasing;
    assert Inv(INITIAL) by {
      assert INITIAL.log + INITIAL.q.waiters == [];
      Nobody();
    }
    RunKeeps(INITIAL, es);
    var s := After(INITIAL, es);
    Split(s.log, s.q.waiters);
  }

  lemma Nobody()
    ensures Increasing([])
  {
  }

  // ------------------------------------------------------ who has a slot

  // The call a step ends: by giving up, or by returning its slot.
  function Ends(e: Step): set<Ticket> {
    match e
    case Cancel(t, _) => {t}
    case Release(t) => {t}
    case _ => {}
  }

  function Ended(es: seq<Step>): set<Ticket> {
    if es == [] then {} else Ends(es[0]) + Ended(es[1..])
  }

  // Of the calls that arrived and are not in gone, those in the log have a slot
  // and the others are queued.
  ghost predicate Ledger(s: State, gone: set<Ticket>) {
    && (forall t :: t in gone ==> t < s.next)
    && (forall t :: t in s.q.granted || t in s.holding <==> t in s.log && t !in gone)
    && (forall t: Ticket :: t in s.q.waiters <==> t < s.next && t !in s.log && t !in gone)
  }

  // grantLocked run on q moves calls from the queue to the log and gives each a
  // slot.
  lemma GrantMoves(q: Queue, holding: set<Ticket>, log: seq<Ticket>, limit: int, next: nat, gone: set<Ticket>)
    requires Increasing(log + q.waiters)
    requires Ledger(State(q, holding, 0, next, log), gone)
    ensures Ledger(State(Granted(q, limit), holding, 0, next, log + Handed(q, limit)), gone)
  {
    hide Increasing, Granted, Handed;
    GrantOrder(q, log, limit);
    WhereTo(q, limit);
  }

  lemma WhereTo(q: Queue, limit: int)
    ensures var hs, g := Handed(q, limit), Granted(q, limit);
      && (forall t :: t in g.granted <==> t in q.granted || t in hs)
      && (forall t :: t in q.waiters <==> t in hs || t in g.waiters)
  {
    HandedFirst(q, limit);
    var hs, g := Handed(q, limit), Granted(q, limit);
    assert g.granted == q.granted + SetOf(hs);
    assert hs + g.waiters == q.waiters;
  }

  // Ledger looks at the queue, the slots and the log only.
  lemma SameLedger(s: State, t: State, gone: set<Ticket>)
    requires Ledger(s, gone) && t.q == s.q && t.holding == s.holding && t.next == s.next && t.log == s.log
    ensures Ledger(t, gone)
  {
  }

  lemma AcquireLedger(s: State, limit: int, gone: set<Ticket>)
    requires InOrder(s) && Ledger(s, gone)
    ensures Ledger(Next(s, Acquire(limit)), gone)
  {
    hide Increasing, Granted, Handed;
    GrantMoves(s.q, s.holding, s.log, limit, s.next, gone);
    NewToLog(s, limit);
  }

  // The queue and the slots without a call that has one.
  lemma WithoutSlot(s: State, t: Ticket, gone: set<Ticket>)
    requires Inv(s) && t in s.q.granted && Ledger(s, gone)
    ensures var q := s.q.(granted := s.q.granted - {t}, held := s.q.held - 1);
      Ledger(State(q, s.holding, 0, s.next, s.log), gone + {t})
  {
    hide Increasing;
    Waiting(s);
  }

  lemma Waiting(s: State)
    requires InOrder(s)
    ensures forall t :: t in s.q.waiters ==> t !in s.log && t !in s.q.granted && t !in s.holding && t < s.next
    ensures forall t :: t in s.q.granted || t in s.holding ==> t in s.log
    ensures forall t :: t in s.log ==> t < s.next
    ensures Increasing(s.q.waiters)
  {
    hide Increasing;
    Split(s.log, s.q.waiters);
    assert forall t :: t in s.q.waiters || t in s.log ==> t in s.log + s.q.waiters;
    assert forall t :: t in s.q.granted || t in s.holding ==> t in s.q.granted + s.holding;
  }

  lemma CancelLedger(s: State, t: Ticket, limit: int, gone: set<Ticket>)
    requires Inv(s) && Enabled(s, Cancel(t, limit)) && Ledger(s, gone)
    ensures Ledger(Next(s, Cancel(t, limit)), gone + {t})
  {
    hide Increasing, Granted, Handed, InOrder;
    Waiting(s);
    if t in s.q.granted {
      hide Ledger;
      var q := s.q.(granted := s.q.granted - {t}, held := s.q.held - 1);
      WithoutSlot(s, t, gone);
      InOrderly(s);
      GrantMoves(q, s.holding, s.log, limit, s.next, gone + {t});
      SameLedger(State(Granted(q, limit), s.holding, 0, s.next, s.log + Handed(q, limit)), Next(s, Cancel(t, limit)),
                 gone + {t});
    } else {
      WithoutDrops(s.q.waiters, t);
    }
  }

  lemma InOrderly(s: State)
    requires InOrder(s)
    ensures Increasing(s.log + s.q.waiters)
  {
  }

  lemma StepLedger(s: State, e: Step, gone: set<Ticket>)
    requires Inv(s) && Enabled(s, e) && Ledger(s, gone)
    ensures Ledger(Next(s, e), gone + Ends(e))
  {
    hide Increasing, Granted, Handed, Ledger;
    assert gone + {} == gone;
    match e
    case Acquire(limit) => AcquireLedger(s, limit, gone);
    case Cancel(t, limit) => CancelLedger(s, t, limit, gone);
    case Recheck(limit) =>
      SameLedger(s, State(s.q, s.holding, 0, s.next, s.log), gone);
      GrantMoves(s.q, s.holding, s.log, limit, s.next, gone);
      SameLedger(State(Granted(s.q, limit), s.holding, 0, s.next, s.log + Handed(s.q, limit)), Next(s, e), gone);
    case Wake(limit) =>
      SameLedger(s, State(s.q, s.holding, 0, s.next, s.log), gone);
      GrantMoves(s.q, s.holding, s.log, limit, s.next, gone);
      SameLedger(State(Granted(s.q, limit), s.holding, 0, s.next, s.log + Handed(s.q, limit)), Next(s, e), gone);
    case Notice(t) => NoticeLedger(s, t, gone);
    case Release(t) => ReleaseLedger(s, t, gone);
  }

  lemma NoticeLedger(s: State, t: Ticket, gone: set<Ticket>)
    requires Counted(s) && t in s.q.granted && Ledger(s, gone)
    ensures Ledger(Next(s, Notice(t)), gone)
  {
    Moves(s.q.granted, s.holding, t);
  }

  lemma ReleaseLedger(s: State, t: Ticket, gone: set<Ticket>)
    requires Inv(s) && t in s.holding && Ledger(s, gone)
    ensures Ledger(Next(s, Release(t)), gone + {t})
  {
    hide InOrder;
    Waiting(s);
  }

  lemma {:induction false} RunLedger(s: State, es: seq<Step>, gone: set<Ticket>)
    requires Inv(s) && Run(s, es) && Ledger(s, gone)
    ensures Ledger(After(s, es), gone + Ended(es))
    decreases |es|
  {
    hide Inv, Next, Enabled, Ledger;
    if es == [] {
      assert gone + {} == gone;
    } else {
      StepKeeps(s, es[0]);
      StepLedger(s, es[0], gone);
      RunLedger(Next(s, es[0]), es[1..], gone + Ends(es[0]));
      assert gone + Ends(es[0]) + Ended(es[1..]) == gone + Ended(es);
    }
  }

  lemma NobodyYet()
    ensures Ledger(INITIAL, {})
  {
    var s := INITIAL;
    assert s.q.granted == {} && s.holding == {} && s.q.waiters == [] && s.log == [] && s.next == 0;
  }

  lemma LedgerCounts(s: State, gone: set<Ticket>)
    requires Inv(s) && Ledger(s, gone)
    ensures s.q.granted + s.holding == SetOf(s.log) - gone && s.q.held == |SetOf(s.log) - gone|
    ensures Increasing(s.q.waiters)
  {
    hide Increasing;
    Split(s.log, s.q.waiters);
    assert s.q.granted + s.holding == SetOf(s.log) - gone;
    Union(s.q.granted, s.holding);
  }

  // For every interleaving: a slot is taken exactly for each call that was given
  // one and has neither been cancelled nor released, and the queue is exactly the
  // calls that were given none and have not been cancelled, in order of arrival.
  lemma EverySlotHasItsCall(es: seq<Step>)
    requires Run(INITIAL, es)
    ensures var s := After(INITIAL, es);
      && s.q.granted + s.holding == SetOf(s.log) - Ended(es)
      && s.q.held == |SetOf(s.log) - Ended(es)|
      && (forall t: Ticket :: t in s.q.waiters <==> t < s.next && t !in s.log && t !in Ended(es))
      && Increasing(s.q.waiters)
  {
    hide Increasing, Run, After, Ended;
    assert Inv(INITIAL) by {
      assert INITIAL.log + INITIAL.q.waiters == [];
      Nobody();
    }
    RunKeeps(INITIAL, es);
    NobodyYet();
    RunLedger(INITIAL, es, {});
    assert {} + Ended(es) == Ended(es);
    LedgerCounts(After(INITIAL, es), Ended(es));
  }

  // A call that gives up leaves the queue and takes no slot; the others keep
  // their order, and if it was queued they all stay and held does not change.
  lemma CancelLeaves(s: State, t: Ticket, limit: int)
    requires Inv(s) && Enabled(s, Cancel(t, limit))
    ensures var r := Next(s, Cancel(t, limit));
      && t !in r.q.waiters && t !in r.q.granted && t !in r.holding
      && Increasing(r.q.waiters)
      && (forall u :: u in s.q.waiters && u != t ==> u in r.q.waiters || u in r.q.granted)
      && (t in s.q.waiters ==> r.q.held == s.q.held && forall u :: u in r.q.waiters <==> u in s.q.waiters && u != t)
  {
    hide Increasing, Granted, Handed, InOrder;
    StepKeeps(s, Cancel(t, limit));
    Waiting(s);
    Waiting(Next(s, Cancel(t, limit)));
    if t in s.q.granted {
      var q := s.q.(granted := s.q.granted - {t}, held := s.q.held - 1);
      WhereTo(q, limit);
    } else {
      WithoutDrops(s.q.waiters, t);
    }
  }

  ghost predicate Absent(s: State, t: Ticket) {
    t < s.next && t !in s.q.waiters && t !in s.q.granted && t !in s.holding
  }

  lemma GrantAbsent(q: Queue, limit: int, t: Ticket)
    requires t !in q.waiters && t !in q.granted
    ensures t !in Granted(q, limit).waiters && t !in Granted(q, limit).granted && t !in Handed(q, limit)
  {
    hide Granted, Handed;
    WhereTo(q, limit);
  }

  // Slots go to queued calls and to the one arriving only.
  lemma StaysAbsent(s: State, e: Step, t: Ticket)
    requires Inv(s) && Enabled(s, e) && Absent(s, t)
    ensures Absent(Next(s, e), t) && (t in Next(s, e).log <==> t in s.log)
  {
    hide Granted, Handed, Inv;
    match e
    case Acquire(limit) => GrantAbsent(s.q, limit, t);
    case Recheck(limit) => GrantAbsent(s.q, limit, t);
    case Wake(limit) => GrantAbsent(s.q, limit, t);
    case Cancel(c, limit) =>
      if c in s.q.granted {
        GrantAbsent(s.q.(granted := s.q.granted - {c}, held := s.q.held - 1), limit, t);
      } else {
        WithoutFewer(s.q.waiters, c, t);
      }
    case _ =>
  }

  lemma {:induction false} WithoutFewer(ws: seq<Ticket>, t: Ticket, u: Ticket)
    requires u !in ws
    ensures u !in Without(ws, t)
  {
    if ws != [] {
      WithoutFewer(ws[1..], t, u);
    }
  }

  lemma {:induction false} AbsentThroughout(s: State, es: seq<Step>, t: Ticket)
    requires Inv(s) && Run(s, es) && Absent(s, t)
    ensures Absent(After(s, es), t) && (t in After(s, es).log <==> t in s.log)
    decreases |es|
  {
    hide Inv, Next, Enabled, Absent;
    if es != [] {
      StepKeeps(s, es[0]);
      StaysAbsent(s, es[0], t);
      AbsentThroughout(Next(s, es[0]), es[1..], t);
    }
  }

  // In no continuation is a cancelled call given a slot, queued again or counted.
  lemma CancelledIsNeverServed(s: State, t: Ticket, limit: int, es: seq<Step>)
    requires Inv(s) && Enabled(s, Cancel(t, limit)) && Run(Next(s, Cancel(t, limit)), es)
    ensures var u := After(Next(s, Cancel(t, limit)), es);
      && t !in u.q.waiters && t !in u.q.granted && t !in u.holding
      && (t in u.log <==> t in Next(s, Cancel(t, limit)).log)
      && (t in s.q.waiters ==> t !in u.log)
  {
    hide Increasing, Granted, Handed, Run, After;
    StepKeeps(s, Cancel(t, limit));
    CancelLeaves(s, t, limit);
    ArrivedBefore(s, t, limit);
    AbsentThroughout(Next(s, Cancel(t, limit)), es, t);
  }

  lemma ArrivedBefore(s: State, t: Ticket, limit: int)
    requires Inv(s) && Enabled(s, Cancel(t, limit))
    ensures t < Next(s, Cancel(t, limit)).next
    ensures t in s.q.waiters ==> t !in Next(s, Cancel(t, limit)).log
  {
    hide InOrder, Granted, Handed;
    Waiting(s);
  }

  // With one limit throughout, held stays within it and no wakeup is lost.
  lemma {:induction false} SteadyLimit(s: State, es: seq<Step>, limit: int)
    requires Inv(s) && Run(s, es) && NoLostWakeup(s, limit) && s.q.held <= limit
    requires forall e :: e in es && !e.Notice? && !e.Release? ==> e.limit == limit
    ensures NoLostWakeup(After(s, es), limit) && After(s, es).q.held <= limit
    decreases |es|
  {
    hide Inv, NoLostWakeup;
    if es != [] {
      StepKeeps(s, es[0]);
      NeverAboveLimit(s, es[0]);
      NoWaiterForgotten(s, es[0], limit);
      SteadyLimit(Next(s, es[0]), es[1..], limit);
    }
  }
}
