// Who owns an FTP session and who may close its control connection: leases, their
// cancellation hooks, and the ways an open or a stream ends
// (internal/ftpstream/pool.go and ftpstream.go).
module FtpLease {
  import opened Wrappers

  // An error of the client library: a complete reply with a code, a data
  // connection that could not be dialled, or anything else.
  datatype Problem = Reply(code: int) | DataDial | Transport

  // ftpReplySynced of an error, if there was one.
  predicate Synced(p: Option<Problem>) {
    match p
    case None => true
    case Some(Reply(code)) => code >= 200 && code != 421
    case Some(_) => false
  }

  // ftpSessionHealthy.
  predicate Healthy(p: Problem) {
    match p
    case Reply(code) => code >= 400 && code != 421 && code != 530 && code != 532
    case DataDial => true
    case Transport => false
  }

  datatype Owner = By(r: nat) | Parked | Gone

  // control: the control connection has not been force-closed. The last two are
  // the server's side of it: how many final replies it still owes, and whether it
  // has neither failed, nor announced its closing, nor refused the login.
  datatype Session = Session(owner: Owner, control: bool, lease: Option<nat>, owed: nat, up: bool)

  // The next command on the connection would be answered by its own reply.
  predicate Clean(x: Session) {
    x.owed == 0 && x.up
  }

  datatype Phase = Opening | Transferring | Aborted

  // The hook of a lease: registered; taken back by stop; begun; past closing the
  // data connections; having won the swap, about to close the control
  // connection; done.
  datatype Hook = Armed | Stopped | Begun | Drained | Closing | Done

  // Where the request is: inside open; about to refuse or fail, before and after
  // stop; streaming; in Close after stop; in Close with its verdict; over.
  datatype Stage =
    | Busy
    | Refusing(unfired: Option<bool>)
    | Failing(unhooked: bool)
    | Streaming
    | Ending
    | Judged(park: bool)
    | Over

  // pooled: on a session taken from the pool; failed: ended by fail on an
  // unhealthy session; retried: its call has gone on to dial.
  datatype Request = Request(session: nat, phase: Phase, hook: Hook, stage: Stage, cancelled: bool,
                             pooled: bool, failed: bool, retried: bool, releases: nat)

  datatype State = State(sessions: seq<Session>, requests: seq<Request>)

  datatype Step =
    // ftpPoolGet or a fresh session, then bind.
    | Take(k: nat)
    | Dial
    | Retry(r: nat)
    | Cancel(r: nat)
    // The next thing the hook does.
    | Hook(r: nat)
    // connect, or RETR, meets a problem; RETR works.
    | ConnectFails(r: nat)
    | RetrFails(r: nat, p: Problem)
    | RetrWorks(r: nat)
    | Stop(r: nat)
    | Release(r: nat)
    // ftpReadCloser.Close: stop and settle; the final reply and its verdict.
    | Close(r: nat)
    | Judge(r: nat, reply: Option<Problem>)
    // The pool drops an idle session.
    | Evict(k: nat)

  const INITIAL := State([], [])

  predicate At(s: State, r: nat) {
    r < |s.requests| && s.requests[r].session < |s.sessions|
  }

  predicate Enabled(s: State, e: Step) {
    match e
    case Take(k) => k < |s.sessions| && s.sessions[k].owner == Parked
    case Dial => true
    case Retry(r) => At(s, r) && var q := s.requests[r];
      q.stage == Over && q.pooled && q.failed && !q.retried && !q.cancelled
    case Cancel(r) => At(s, r)
    case Hook(r) => At(s, r) && var q := s.requests[r];
      (q.hook == Armed && q.cancelled) || q.hook in {Begun, Drained, Closing}
    case ConnectFails(r) => At(s, r) && s.requests[r].stage == Busy
    case RetrFails(r, _) => At(s, r) && s.requests[r].stage == Busy
    case RetrWorks(r) => At(s, r) && s.requests[r].stage == Busy
    case Stop(r) => At(s, r) && s.requests[r].stage in {Refusing(None), Failing(false)}
    case Release(r) => At(s, r) && var g := s.requests[r].stage;
      (g.Refusing? && g.unfired.Some?) || g == Failing(true) || g.Judged?
    case Close(r) => At(s, r) && s.requests[r].stage == Streaming
    case Judge(r, _) => At(s, r) && s.requests[r].stage == Ending
    case Evict(k) => k < |s.sessions| && s.sessions[k].owner == Parked
  }

  function Bound(session: nat, pooled: bool): Request {
    Request(session, Opening, Armed, Busy, false, pooled, false, false, 0)
  }

  // stop: whether the hook was taken back before it began.
  function Unhook(q: Request): Request {
    if q.hook == Armed then q.(hook := Stopped) else q
  }

  // What the hook does next; the swap is where it may win the lease.
  function Hooked(q: Request): Request {
    match q.hook
    case Armed => q.(hook := Begun)
    case Begun => q.(hook := Drained)
    case Drained => if q.phase == Opening then q.(phase := Aborted, hook := Closing) else q.(hook := Done)
    case Closing => q.(hook := Done)
    case _ => q
  }

  // After a RETR that worked: the context is checked, then beginTransfer swaps.
  function Begin(q: Request): Request {
    if q.cancelled || q.phase != Opening then q.(stage := Failing(false), failed := true)
    else q.(phase := Transferring, stage := Streaming)
  }

  // Whether the release parks the session or discards it.
  predicate Parks(q: Request) {
    q.stage == Refusing(Some(true)) || q.stage == Judged(true)
  }

  // The session a hook, or a release, leaves.
  function Shut(q: Request, x: Session): Session {
    if q.hook == Closing then x.(control := false) else x
  }

  function Released(q: Request, x: Session): Session {
    if Parks(q) then x.(owner := Parked, lease := None) else x.(owner := Gone, control := false, lease := None)
  }

  // What a failed RETR says of the connection: a preliminary reply leaves the
  // final one owed; some replies mean that the session is no good.
  function Refused(x: Session, p: Problem): Session {
    match p
    case Reply(code) =>
      if code < 200 then x.(owed := x.owed + 1)
      else if code in {421, 530, 532} then x.(up := false)
      else x
    case DataDial => x
    case Transport => x.(up := false)
  }

  // What the end of a transfer says of it: the reply owed has been read, without
  // an error or as one, or it has not.
  function Answered(x: Session, reply: Option<Problem>): Session {
    var settled := x.(owed := if x.owed > 0 then x.owed - 1 else 0);
    match reply
    case None => settled
    case Some(Reply(code)) => if code < 200 then x else if code == 421 then settled.(up := false) else settled
    case Some(DataDial) => x
    case Some(Transport) => x.(up := false)
  }

  // The session of request q after its step e.
  function Left(q: Request, x: Session, e: Step): Session {
    match e
    case Hook(_) => Shut(q, x)
    case ConnectFails(_) => x.(up := false)
    case RetrFails(_, p) => Refused(x, p)
    case RetrWorks(_) => x.(owed := x.owed + 1)
    case Release(_) => Released(q, x)
    case Judge(_, reply) => Answered(x, reply)
    case _ => x
  }

  // The request a step moves.
  function Moved(q: Request, control: bool, e: Step): Request
  {
    match e
    case Retry(_) => q.(retried := true)
    case Cancel(_) => q.(cancelled := true)
    case Hook(_) => Hooked(q)
    case ConnectFails(_) => q.(stage := Failing(false), failed := true)
    case RetrFails(_, p) =>
      if Healthy(p) then q.(stage := Refusing(None)) else q.(stage := Failing(false), failed := true)
    case RetrWorks(_) => Begin(q)
    case Stop(_) => Unhook(q).(stage := if q.stage.Refusing? then Refusing(Some(q.hook == Armed)) else Failing(true))
    case Release(_) => q.(stage := Over, releases := q.releases + 1)
    case Close(_) => Unhook(q).(stage := Ending)
    case Judge(_, reply) => q.(stage := Judged(Synced(reply) && control))
    case _ => q
  }

  function Next(s: State, e: Step): State
    requires Enabled(s, e)
  {
    match e
    case Take(k) =>
      State(s.sessions[k := s.sessions[k].(owner := By(|s.requests|), lease := Some(|s.requests|))],
            s.requests + [Bound(k, true)])
    case Dial => State(s.sessions + [Dialled(|s.requests|)], s.requests + [Bound(|s.sessions|, false)])
    case Retry(r) =>
      State(s.sessions + [Dialled(|s.requests|)],
            s.requests[r := s.requests[r].(retried := true)] + [Bound(|s.sessions|, false)])
    case Evict(k) => s.(sessions := s.sessions[k := s.sessions[k].(owner := Gone, control := false)])
    case _ =>
      var q := s.requests[e.r];
      var x := s.sessions[q.session];
      State(s.sessions[q.session := Left(q, x, e)], s.requests[e.r := Moved(q, x.control, e)])
  }

  function Dialled(r: nat): Session {
    Session(By(r), true, Some(r), 0, true)
  }

  // ---------------------------------------------------------------- invariant

  // What a request says of itself: the swap has one winner, and each end releases
  // the session once.
  ghost predicate Sound(q: Request) {
    && q.releases == (if q.stage == Over then 1 else 0)
    && (q.failed ==> q.stage.Failing? || q.stage == Over)
    && (q.hook in {Armed, Stopped, Begun, Drained} ==> q.phase != Aborted)
    && (q.hook == Closing ==> q.phase == Aborted)
    && (q.hook == Done ==> q.phase != Opening)
    && (q.stage in {Streaming, Ending} || q.stage.Judged? ==> q.phase == Transferring)
    && (q.stage == Busy || q.stage.Refusing? || q.stage.Failing? ==> q.phase != Transferring)
    && (q.stage == Refusing(Some(true)) ==> q.hook == Stopped && q.phase == Opening)
    && (q.stage in {Ending, Over, Failing(true)} || q.stage.Judged? ==> q.hook != Armed)
    && (q.stage.Refusing? && q.stage.unfired.Some? ==> q.hook != Armed)
    && (q.stage == Refusing(None) || q.stage in {Busy, Failing(false), Streaming} ==> q.hook != Stopped)
  }

  // What is owed on the session at each stage of its request; the verdict at the
  // end of a stream is right.
  ghost predicate Standing(q: Request, x: Session) {
    match q.stage
    case Busy => Clean(x)
    case Refusing(_) => Clean(x)
    case Failing(_) => true
    case Streaming => x.owed == 1 && x.up
    case Ending => x.owed == 1 && x.up
    case Judged(park) => park <==> Clean(x) && x.control
    case Over => true
  }

  // What request r and its session x say of each other.
  ghost predicate Held(q: Request, r: nat, x: Session) {
    && (q.stage != Over ==> x.owner == By(r) && Standing(q, x))
    && (q.stage == Over && q.phase != Transferring && q.hook != Stopped ==> x.owner == Gone)
    && (q.stage == Over && q.failed ==> x.owner == Gone)
    && (x.owner == By(r) ==> q.stage != Over && x.lease == Some(r) && (x.control || q.phase == Aborted))
  }

  ghost predicate Fit(x: Session) {
    && (!x.owner.By? ==> x.lease.None?)
    && (x.owner == Parked ==> x.control && Clean(x))
    && (x.owner == Gone ==> !x.control)
  }

  // A session is with its request, parked or gone, and only the hook of the
  // request that has it can still close its control connection.
  ghost predicate Owned(s: State) {
    && (forall r {:trigger s.requests[r]} :: 0 <= r < |s.requests| ==>
         s.requests[r].session < |s.sessions| && Held(s.requests[r], r, s.sessions[s.requests[r].session]))
    && (forall k :: 0 <= k < |s.sessions| ==>
         && Fit(s.sessions[k])
         && (s.sessions[k].owner.By? ==>
              s.sessions[k].owner.r < |s.requests| && s.requests[s.sessions[k].owner.r].session == k))
  }

  ghost predicate Inv(s: State) {
    Owned(s) && forall r :: 0 <= r < |s.requests| ==> Sound(s.requests[r])
  }

  predicate Moves(e: Step) {
    !e.Take? && !e.Dial? && !e.Evict?
  }

  lemma HookedSound(q: Request)
    requires Sound(q)
    ensures Sound(Hooked(q))
  {
  }

  lemma OpenedSound(q: Request, e: Step, control: bool)
    requires Sound(q) && q.stage == Busy && (e.ConnectFails? || e.RetrFails? || e.RetrWorks?)
    ensures Sound(Moved(q, control, e))
  {
    hide Healthy, Synced, Hooked, Unhook;
  }

  lemma EndedSound(s: State, e: Step)
    requires e.Stop? || e.Release? || e.Close? || e.Judge? || e.Retry? || e.Cancel?
    requires Enabled(s, e) && Sound(s.requests[e.r])
    ensures Sound(Moved(s.requests[e.r], s.sessions[s.requests[e.r].session].control, e))
  {
    hide Healthy, Synced, Hooked, Begin;
  }

  lemma MovedSound(s: State, e: Step)
    requires Enabled(s, e) && Moves(e) && Sound(s.requests[e.r])
    ensures Sound(Moved(s.requests[e.r], s.sessions[s.requests[e.r].session].control, e))
  {
    hide Healthy, Synced, Sound, Hooked, Begin, Unhook, Left;
    var q := s.requests[e.r];
    if e.Hook? {
      HookedSound(q);
    } else if e.ConnectFails? || e.RetrFails? || e.RetrWorks? {
      OpenedSound(q, e, s.sessions[q.session].control);
    } else {
      EndedSound(s, e);
    }
  }

  lemma NextMoves(s: State, e: Step)
    requires Enabled(s, e) && Moves(e)
    ensures |Next(s, e).requests| >= |s.requests|
    ensures Next(s, e).requests[..|s.requests|]
         == s.requests[e.r := Moved(s.requests[e.r], s.sessions[s.requests[e.r].session].control, e)]
    ensures forall r :: |s.requests| <= r < |Next(s, e).requests| ==>
      Next(s, e).requests[r] == Bound(|s.sessions|, false)
  {
    hide Left, Healthy, Synced, Begin, Hooked, Unhook;
  }

  lemma BoundSound(k: nat, pooled: bool)
    ensures Sound(Bound(k, pooled))
  {
  }

  lemma SoundKept(s: State, e: Step)
    requires Inv(s) && Enabled(s, e)
    ensures forall r :: 0 <= r < |Next(s, e).requests| ==> Sound(Next(s, e).requests[r])
  {
    hide Owned, Sound, Moved, Left;
    if Moves(e) {
      MovedSound(s, e);
      NextMoves(s, e);
      BoundSound(|s.sessions|, false);
    } else {
      BoundSound(|s.sessions|, false);
      if e.Take? {
        BoundSound(e.k, true);
      }
    }
  }

  // A step of one request, which may change its own session.
  lemma OneMoves(s: State, t: State, r: nat)
    requires Owned(s) && r < |s.requests| && |t.requests| == |s.requests| && |t.sessions| == |s.sessions|
    requires t.requests[r].session == s.requests[r].session
    requires t.requests == s.requests[r := t.requests[r]]
    requires var k := s.requests[r].session;
      && t.sessions == s.sessions[k := t.sessions[k]]
      && (s.sessions[k].owner == By(r) || t.sessions[k] == s.sessions[k])
      && Held(t.requests[r], r, t.sessions[k]) && Fit(t.sessions[k])
      && (t.sessions[k].owner == By(r) || t.sessions[k] == s.sessions[k] || !t.sessions[k].owner.By?)
    ensures Owned(t)
  {
    var k := s.requests[r].session;
    forall j | 0 <= j < |t.requests|
      ensures t.requests[j].session < |t.sessions| && Held(t.requests[j], j, t.sessions[t.requests[j].session])
    {
      if j != r {
        assert t.requests[j] == s.requests[j] && Held(s.requests[j], j, s.sessions[s.requests[j].session]);
      }
    }
  }

  lemma MoveOwned(s: State, e: Step)
    requires Inv(s) && Enabled(s, e) && Moves(e) && !e.Retry?
    ensures Owned(Next(s, e))
  {
    hide Healthy, Synced, Owned, Left, Moved, Held, Fit;
    var t := Next(s, e);
    var k := s.requests[e.r].session;
    MoverHeld(s, e);
    MovedSound(s, e);
    OneMoves(s, t, e.r);
  }

  lemma ReleaseHeld(q: Request, r: nat, x: Session)
    requires Held(q, r, x) && Sound(q) &&
      ((q.stage.Refusing? && q.stage.unfired.Some?) || q.stage == Failing(true) || q.stage.Judged?)
    ensures x.owner == By(r)
    ensures Held(q.(stage := Over, releases := q.releases + 1), r, Released(q, x)) && Fit(Released(q, x))
  {
  }

  lemma HookHeld(q: Request, r: nat, x: Session)
    requires Held(q, r, x) && Fit(x) && Sound(q)
    ensures Held(Hooked(q), r, Shut(q, x)) && Fit(Shut(q, x))
    ensures x.owner == By(r) || Shut(q, x) == x
    ensures Shut(q, x).owner == x.owner && Hooked(q).session == q.session
  {
    if q.hook != Closing {
      assert Shut(q, x) == x;
    }
  }

  // The ends of open, and RETR.
  lemma FailHeld(q: Request, r: nat, x: Session, p: Problem)
    requires Held(q, r, x) && Fit(x) && Sound(q) && q.stage == Busy
    ensures var m, y := Moved(q, x.control, RetrFails(r, p)), Refused(x, p);
      x.owner == By(r) == y.owner && m.session == q.session && Held(m, r, y) && Fit(y)
  {
  }

  lemma WorkHeld(q: Request, r: nat, x: Session)
    requires Held(q, r, x) && Fit(x) && Sound(q) && q.stage == Busy
    ensures var y := x.(owed := x.owed + 1);
      x.owner == By(r) == y.owner && Begin(q).session == q.session && Held(Begin(q), r, y) && Fit(y)
  {
  }

  lemma ConnectHeld(q: Request, r: nat, x: Session)
    requires Held(q, r, x) && Fit(x) && Sound(q) && q.stage == Busy
    ensures var m, y := q.(stage := Failing(false), failed := true), x.(up := false);
      x.owner == By(r) == y.owner && Held(m, r, y) && Fit(y)
  {
  }

  lemma JudgeHeld(q: Request, r: nat, x: Session, reply: Option<Problem>)
    requires Held(q, r, x) && Fit(x) && Sound(q) && q.stage == Ending
    ensures var m := Moved(q, x.control, Judge(r, reply));
      x.owner == By(r) == Answered(x, reply).owner && m.session == q.session
      && Held(m, r, Answered(x, reply)) && Fit(Answered(x, reply))
  {
  }

  lemma OthersHeld(s: State, e: Step)
    requires Enabled(s, e) && (e.Cancel? || e.Stop? || e.Close?)
    requires var q := s.requests[e.r]; Sound(q) && Held(q, e.r, s.sessions[q.session])
    ensures var q, x := s.requests[e.r], s.sessions[s.requests[e.r].session];
      && Left(q, x, e) == x && Moved(q, x.control, e).session == q.session
      && Held(Moved(q, x.control, e), e.r, x)
  {
    hide Healthy, Synced, Hooked;
  }

  lemma MoverHeld(s: State, e: Step)
    requires Inv(s) && Enabled(s, e) && Moves(e) && !e.Retry?
    ensures var t := Next(s, e); var k := s.requests[e.r].session;
      && |t.requests| == |s.requests| && |t.sessions| == |s.sessions|
      && t.requests == s.requests[e.r := t.requests[e.r]] && t.requests[e.r].session == k
      && t.sessions == s.sessions[k := t.sessions[k]]
      && (s.sessions[k].owner == By(e.r) || t.sessions[k] == s.sessions[k])
      && Held(t.requests[e.r], e.r, t.sessions[k]) && Fit(t.sessions[k])
      && (t.sessions[k].owner == By(e.r) || t.sessions[k] == s.sessions[k] || !t.sessions[k].owner.By?)
  {
    hide Healthy, Synced, Held, Fit, Sound, Begin, Unhook, Refused, Answered, Released, Shut, Hooked;
    var q, x := s.requests[e.r], s.sessions[s.requests[e.r].session];
    assert Held(q, e.r, x) && Sound(q) && Fit(x);
    match e
    case Hook(_) => HookHeld(q, e.r, x);
    case Release(_) =>
      ReleaseHeld(q, e.r, x);
      ReleasedOwner(q, x);
    case Judge(_, reply) => JudgeHeld(q, e.r, x, reply);
    case ConnectFails(_) => ConnectHeld(q, e.r, x);
    case RetrFails(_, p) => FailHeld(q, e.r, x, p);
    case RetrWorks(_) => WorkHeld(q, e.r, x);
    case _ => OthersHeld(s, e);
  }

  lemma ReleasedOwner(q: Request, x: Session)
    ensures Released(q, x).owner in {Parked, Gone}
  {
  }

  // A session in nobody's hands taken by a new request.
  lemma TakeOwned(s: State, t: State, k: nat, q: Request)
    requires Owned(s) && k < |s.sessions| && s.sessions[k].owner == Parked
    requires q.session == k && q.stage == Busy && t.requests == s.requests + [q]
    requires t.sessions == s.sessions[k := s.sessions[k].(owner := By(|s.requests|), lease := Some(|s.requests|))]
    ensures Owned(t)
  {
  }

  lemma DialOwned(s: State, t: State, q: Request)
    requires Owned(s) && q.session == |s.sessions| && q.stage == Busy && t.requests == s.requests + [q]
    requires t.sessions == s.sessions + [Dialled(|s.requests|)]
    ensures Owned(t)
  {
  }

  lemma EvictOwned(s: State, k: nat)
    requires Owned(s) && k < |s.sessions| && s.sessions[k].owner == Parked
    ensures Owned(s.(sessions := s.sessions[k := s.sessions[k].(owner := Gone, control := false)]))
  {
  }

  lemma RetryOwned(s: State, r: nat)
    requires Inv(s) && Enabled(s, Retry(r))
    ensures Owned(Next(s, Retry(r)))
  {
    var u := s.(requests := s.requests[r := s.requests[r].(retried := true)]);
    assert Held(s.requests[r], r, s.sessions[s.requests[r].session]);
    OneMoves(s, u, r);
    DialOwned(u, Next(s, Retry(r)), Bound(|s.sessions|, false));
  }

  lemma StepKeeps(s: State, e: Step)
    requires Inv(s) && Enabled(s, e)
    ensures Inv(Next(s, e))
  {
    hide Owned, Sound, Healthy, Synced;
    SoundKept(s, e);
    match e
    case Take(k) => TakeOwned(s, Next(s, e), k, Bound(k, true));
    case Dial => DialOwned(s, Next(s, e), Bound(|s.sessions|, false));
    case Retry(r) => RetryOwned(s, r);
    case Evict(k) => EvictOwned(s, k);
    case _ => MoveOwned(s, e);
  }

  // ------------------------------------------------------------- what is kept

  ghost predicate Run(s: State, es: seq<Step>)
    decreases |es|
  {
    es == [] || (Enabled(s, es[0]) && Run(Next(s, es[0]), es[1..]))
  }

  ghost function After(s: State, es: seq<Step>): State
    requires Run(s, es)
    decreases |es|
  {
    if es == [] then s else After(Next(s, es[0]), es[1..])
  }

  lemma {:induction false} RunKeeps(s: State, es: seq<Step>)
    requires Inv(s) && Run(s, es)
    ensures Inv(After(s, es))
    decreases |es|
  {
    hide Inv, Next, Enabled;
    if es != [] {
      StepKeeps(s, es[0]);
      RunKeeps(Next(s, es[0]), es[1..]);
    }
  }

  // Over every interleaving a request that is over has released its session
  // exactly once and one that is not still has it; a parked session is alive and
  // bound to no request; and when every request is over, every session is parked
  // or gone.
  lemma ReleasedExactlyOnce(es: seq<Step>)
    requires Run(INITIAL, es)
    ensures var s := After(INITIAL, es);
      && (forall r :: 0 <= r < |s.requests| ==> s.requests[r].releases == if s.requests[r].stage == Over then 1 else 0)
      && (forall r :: 0 <= r < |s.requests| ==>
           && s.requests[r].session < |s.sessions|
           && (s.requests[r].stage != Over <==> s.sessions[s.requests[r].session].owner == By(r)))
      && (forall k :: 0 <= k < |s.sessions| && s.sessions[k].owner == Parked ==>
           s.sessions[k].control && s.sessions[k].lease.None? && s.sessions[k].owed == 0 && s.sessions[k].up)
      && ((forall r :: 0 <= r < |s.requests| ==> s.requests[r].stage == Over) ==>
           forall k :: 0 <= k < |s.sessions| ==> s.sessions[k].owner in {Parked, Gone})
  {
    hide Run, After;
    RunKeeps(INITIAL, es);
    var s := After(INITIAL, es);
    forall r | 0 <= r < |s.requests|
      ensures Sound(s.requests[r]) && Held(s.requests[r], r, s.sessions[s.requests[r].session])
    {
    }
  }

  // A stream's session is parked exactly if the server owes nothing on it and
  // nothing read from it says that it is no good, and else discarded: by the
  // verdict of Close, whatever the last reply.
  lemma StreamParksCleanSession(s: State, r: nat)
    requires Inv(s) && Enabled(s, Release(r)) && s.requests[r].stage.Judged?
    ensures var k := s.requests[r].session; var x, y := s.sessions[k], Next(s, Release(r)).sessions[k];
      && (y.owner == Parked <==> x.owed == 0 && x.up && x.control)
      && (y.owner == Gone <==> !(x.owed == 0 && x.up && x.control))
  {
    hide Healthy, Synced;
    assert Sound(s.requests[r]) && Held(s.requests[r], r, s.sessions[s.requests[r].session]);
  }

  // The end of an open whose RETR failed, with the hook not begun: what becomes of
  // the session and the request.
  lemma RefusalRun(s: State, r: nat, p: Problem)
    requires Inv(s) && Enabled(s, RetrFails(r, p)) && s.requests[r].hook == Armed
    ensures var es := [RetrFails(r, p), Stop(r), Release(r)]; var q := s.requests[r];
      && Run(s, es) && q.session < |s.sessions| && q.session < |Next(s, RetrFails(r, p)).sessions|
      && At(After(s, es), r) && q.session < |After(s, es).sessions|
      && var x, y := Next(s, RetrFails(r, p)).sessions[q.session], After(s, es).sessions[q.session];
         var t := After(s, es).requests[r];
         && x == Refused(s.sessions[q.session], p) && Clean(s.sessions[q.session])
         && y.owner == (if Clean(x) && !(p.Reply? && p.code < 400) then Parked else Gone)
         && t == q.(hook := t.hook, stage := Over, failed := q.failed || y.owner == Gone, releases := t.releases)
  {
    hide Inv, Sound, Run, After, Enabled, Next, Moved, Left, Refused;
    Moving(s, RetrFails(r, p));
    HeldAt(s, r);
    RefusedOutcome(s.requests[r], s.sessions[s.requests[r].session], r, p);
    var t1 := Next(s, RetrFails(r, p));
    Moving(t1, Stop(r));
    var t2 := Next(t1, Stop(r));
    Moving(t2, Release(r));
    NoStep(Next(t2, Release(r)));
    assert [Stop(r)] + [Release(r)] == [Stop(r), Release(r)] && [Release(r)] + [] == [Release(r)];
    OneStep(t2, Release(r), []);
    OneStep(t1, Stop(r), [Release(r)]);
    OneStep(s, RetrFails(r, p), [Stop(r), Release(r)]);
    assert [RetrFails(r, p)] + [Stop(r), Release(r)] == [RetrFails(r, p), Stop(r), Release(r)];
  }

  // A refused open parks it exactly if that holds once RETR has failed and the
  // hook has not begun, unless the reply was no refusal.
  lemma RefusalParksCleanSession(s: State, r: nat, p: Problem)
    requires Inv(s) && Enabled(s, RetrFails(r, p)) && s.requests[r].hook == Armed
    ensures var es := [RetrFails(r, p), Stop(r), Release(r)]; var k := s.requests[r].session;
      && Run(s, es) && k < |After(s, es).sessions| && k < |Next(s, RetrFails(r, p)).sessions|
      && var x, y := Next(s, RetrFails(r, p)).sessions[k], After(s, es).sessions[k];
         && y.owner == (if x.owed == 0 && x.up && !(p.Reply? && p.code < 400) then Parked else Gone)
  {
    hide Inv, Run, After, Enabled, Next;
    RefusalRun(s, r, p);
  }

  // A step of request r: when it may be taken, and what becomes of the two.
  lemma Moving(s: State, e: Step)
    requires e.RetrFails? || e.Stop? || e.Release? || e.Cancel? || e.Hook?
    requires At(s, e.r) || Enabled(s, e)
    ensures At(s, e.r)
    ensures var q := s.requests[e.r];
      Enabled(s, e) <==>
        match e
        case RetrFails(_, _) => q.stage == Busy
        case Stop(_) => q.stage in {Refusing(None), Failing(false)}
        case Release(_) => (q.stage.Refusing? && q.stage.unfired.Some?) || q.stage == Failing(true) || q.stage.Judged?
        case Hook(_) => (q.hook == Armed && q.cancelled) || q.hook in {Begun, Drained, Closing}
        case _ => true
    ensures Enabled(s, e) ==>
      var q := s.requests[e.r]; var x := s.sessions[q.session]; var t := Next(s, e);
      && At(t, e.r) && t.requests[e.r] == Moved(q, x.control, e) && t.sessions[q.session] == Left(q, x, e)
      && t.requests[e.r].session == q.session
  {
    hide Healthy, Synced, Refused, Answered, Released;
  }

  lemma RefusedOutcome(q: Request, x: Session, r: nat, p: Problem)
    requires q.stage == Busy && q.hook == Armed && Clean(x)
    ensures var q1 := Moved(q, x.control, RetrFails(r, p)); var x1 := Left(q, x, RetrFails(r, p));
      var q2 := Moved(q1, x1.control, Stop(r)); var x2 := Left(q1, x1, Stop(r));
      && x2 == x1 == Refused(x, p) && q1.stage in {Refusing(None), Failing(false)}
      && ((q2.stage.Refusing? && q2.stage.unfired.Some?) || q2.stage == Failing(true))
      && Left(q2, x2, Release(r)).owner == (if Clean(x1) && !(p.Reply? && p.code < 400) then Parked else Gone)
      && var q3 := Moved(q2, x2.control, Release(r));
         q3 == q.(hook := q3.hook, stage := Over, releases := q3.releases,
                  failed := q.failed || Left(q2, x2, Release(r)).owner == Gone)
  {
  }

  lemma HeldAt(s: State, r: nat)
    requires Inv(s) && r < |s.requests|
    ensures s.requests[r].session < |s.sessions| && Held(s.requests[r], r, s.sessions[s.requests[r].session])
    ensures Sound(s.requests[r]) && Fit(s.sessions[s.requests[r].session])
  {
  }

  lemma OneStep(s: State, e: Step, es: seq<Step>)
    requires Enabled(s, e) && Run(Next(s, e), es)
    ensures Run(s, [e] + es) && After(s, [e] + es) == After(Next(s, e), es)
  {
    hide Enabled, Next;
    assert ([e] + es)[1..] == es;
  }

  // A call on a pooled session goes on to dial exactly if its RETR has shown that
  // session to be unusable, so that it was discarded.
  lemma StaleIsRetried(s: State, k: nat, p: Problem)
    requires Inv(s) && Enabled(s, Take(k))
    ensures var r := |s.requests|; var es := [Take(k), RetrFails(r, p), Stop(r), Release(r)];
      && Run(s, es) && k < |After(s, es).sessions|
      && (Enabled(After(s, es), Retry(r)) <==> After(s, es).sessions[k].owner == Gone)
      && (p.Transport? || p == Reply(421) || p == Reply(530) || p == Reply(532) ==> Enabled(After(s, es), Retry(r)))
      && (p.DataDial? ==> !Enabled(After(s, es), Retry(r)))
  {
    hide Inv, Healthy, Run, After, Enabled, Next, Released, Unhook;
    var r := |s.requests|;
    TakenAt(s, k);
    var t := Next(s, Take(k));
    StepKeeps(s, Take(k));
    Moving(t, RetrFails(r, p));
    RefusalRun(t, r, p);
    OneStep(s, Take(k), [RetrFails(r, p), Stop(r), Release(r)]);
    assert [Take(k)] + [RetrFails(r, p), Stop(r), Release(r)] == [Take(k), RetrFails(r, p), Stop(r), Release(r)];
    MayRetry(After(s, [Take(k), RetrFails(r, p), Stop(r), Release(r)]), r);
  }

  lemma MayRetry(s: State, r: nat)
    requires At(s, r)
    ensures var q := s.requests[r];
      Enabled(s, Retry(r)) <==> q.stage == Over && q.pooled && q.failed && !q.retried && !q.cancelled
  {
  }

  lemma TakenAt(s: State, k: nat)
    requires Enabled(s, Take(k))
    ensures var t := Next(s, Take(k)); At(t, |s.requests|) && t.requests[|s.requests|] == Bound(k, true)
  {
  }

  // A call cancelled before its RETR has worked never gets a stream: in no
  // continuation does it move on to transferring.
  lemma {:induction false} CancelledNeverStreams(s: State, es: seq<Step>, r: nat)
    requires Inv(s) && Run(s, es) && r < |s.requests| && s.requests[r].cancelled && s.requests[r].phase != Transferring
    ensures var u := After(s, es);
      r < |u.requests| && u.requests[r].phase != Transferring && u.requests[r].stage !in {Streaming, Ending}
    decreases |es|
  {
    hide Inv, Next, Enabled;
    if es == [] {
      HeldAt(s, r);
    } else {
      StepKeeps(s, es[0]);
      StaysCancelled(s, es[0], r);
      CancelledNeverStreams(Next(s, es[0]), es[1..], r);
    }
  }

  lemma StaysCancelled(s: State, e: Step, r: nat)
    requires Enabled(s, e) && r < |s.requests| && s.requests[r].cancelled && s.requests[r].phase != Transferring
    ensures var t := Next(s, e);
      r < |t.requests| && t.requests[r].cancelled && t.requests[r].phase != Transferring
  {
    hide Healthy, Synced, Left;
  }

  // What a cancellation does: the hook can begin, and from there it closes the
  // control connection of a call that is still opening.
  lemma CancelAborts(s: State, r: nat)
    requires Inv(s) && At(s, r) && s.requests[r].hook == Armed && s.requests[r].phase == Opening
    ensures var es := [Cancel(r), Hook(r), Hook(r), Hook(r), Hook(r)];
      && Run(s, es) && r < |After(s, es).requests| && s.requests[r].session < |After(s, es).sessions|
      && After(s, es).requests[r].phase == Aborted && !After(s, es).sessions[s.requests[r].session].control
  {
    hide Inv, Run, After, Enabled, Next, Moved, Left;
    HookAborts(s.requests[r], s.sessions[s.requests[r].session], r);
    Moving(s, Cancel(r));
    var t1 := Next(s, Cancel(r));
    Moving(t1, Hook(r));
    var t2 := Next(t1, Hook(r));
    Moving(t2, Hook(r));
    var t3 := Next(t2, Hook(r));
    Moving(t3, Hook(r));
    var t4 := Next(t3, Hook(r));
    Moving(t4, Hook(r));
    NoStep(Next(t4, Hook(r)));
    var h := [Hook(r)];
    assert h + [] == h && h + h == [Hook(r), Hook(r)] && h + [Hook(r), Hook(r)] == [Hook(r), Hook(r), Hook(r)];
    OneStep(t4, Hook(r), []);
    OneStep(t3, Hook(r), h);
    OneStep(t2, Hook(r), [Hook(r), Hook(r)]);
    OneStep(t1, Hook(r), [Hook(r), Hook(r), Hook(r)]);
    var hs := h + [Hook(r), Hook(r), Hook(r)];
    OneStep(s, Cancel(r), hs);
    assert [Cancel(r)] + hs == [Cancel(r), Hook(r), Hook(r), Hook(r), Hook(r)];
  }

  // The four actions of the hook of a call that is still opening.
  lemma HookAborts(q: Request, x: Session, r: nat)
    requires q.hook == Armed && q.phase == Opening
    ensures var q1, x1 := Moved(q, x.control, Cancel(r)), Left(q, x, Cancel(r));
      var q2, x2 := Moved(q1, x1.control, Hook(r)), Left(q1, x1, Hook(r));
      var q3, x3 := Moved(q2, x2.control, Hook(r)), Left(q2, x2, Hook(r));
      var q4, x4 := Moved(q3, x3.control, Hook(r)), Left(q3, x3, Hook(r));
      && q1.cancelled && q1.hook == Armed && q2.hook == Begun && q3.hook == Drained && q4.hook == Closing
      && Moved(q4, x4.control, Hook(r)).phase == Aborted && !Left(q4, x4, Hook(r)).control
  {
  }

  lemma NoStep(s: State)
    ensures Run(s, []) && After(s, []) == s
  {
  }

  // The control connection of a session is closed only by the request that has
  // it, as its hook or as it gives the session up, or by the pool it is parked
  // in: an old request's hook never reaches it.
  lemma WhoClosesControl(s: State, e: Step, k: nat)
    requires Inv(s) && Enabled(s, e) && k < |s.sessions| && s.sessions[k].control
    ensures k < |Next(s, e).sessions|
    ensures !Next(s, e).sessions[k].control ==>
      match s.sessions[k].owner
      case By(r) => e == Hook(r) || e == Release(r)
      case Parked => e == Evict(k)
      case Gone => false
  {
    hide Moved, Left, Sound, Held, Owned;
    if Moves(e) && !e.Retry? {
      HeldAt(s, e.r);
      if s.requests[e.r].session == k {
        LeftControl(s.requests[e.r], s.sessions[k], e);
      }
    }
  }

  lemma LeftControl(q: Request, x: Session, e: Step)
    requires Moves(e) && !e.Retry? && Held(q, e.r, x) && Sound(q) && Fit(x) && x.control
    requires e.Release? ==> q.stage != Over
    ensures !Left(q, x, e).control ==> x.owner == By(e.r) && (e == Hook(e.r) || e == Release(e.r))
  {
    hide Refused, Answered;
    OnlyWire(x);
  }

  lemma OnlyWire(x: Session)
    ensures forall p :: Refused(x, p).control == x.control
    ensures forall reply :: Answered(x, reply).control == x.control
  {
  }

  // A lease leaves Opening once, by beginTransfer or by the hook, and never
  // changes again.
  lemma OneWinner(s: State, e: Step, r: nat)
    requires Inv(s) && Enabled(s, e) && r < |s.requests|
    ensures r < |Next(s, e).requests|
    ensures var p, q := s.requests[r].phase, Next(s, e).requests[r].phase;
      if p != Opening then q == p
      else (q == Transferring ==> e == RetrWorks(r)) && (q == Aborted ==> e == Hook(r))
  {
    hide Healthy, Synced, Owned;
  }

  // A request that has gone on to dial, or was on a new session, stays so.
  lemma {:induction false} NeverRetried(s: State, es: seq<Step>, r: nat)
    requires Run(s, es) && r < |s.requests| && (s.requests[r].retried || !s.requests[r].pooled)
    ensures !Enabled(After(s, es), Retry(r))
    decreases |es|
  {
    hide Next, Enabled;
    if es == [] {
      Spent(s, r);
    } else {
      SpentStep(s, es[0], r);
      NeverRetried(Next(s, es[0]), es[1..], r);
    }
  }

  lemma Spent(s: State, r: nat)
    requires r < |s.requests| && (s.requests[r].retried || !s.requests[r].pooled)
    ensures !Enabled(s, Retry(r))
  {
  }

  lemma SpentStep(s: State, e: Step, r: nat)
    requires Enabled(s, e) && r < |s.requests| && (s.requests[r].retried || !s.requests[r].pooled)
    ensures var t := Next(s, e); r < |t.requests| && (t.requests[r].retried || !t.requests[r].pooled)
  {
    hide Healthy, Synced;
  }

  // A call that dials again after a stale session has discarded that session, and
  // does so once: in no continuation is the call retried again, nor its second
  // attempt, which is on a new session.
  lemma RetriesOnce(s: State, r: nat, es: seq<Step>)
    requires Inv(s) && Enabled(s, Retry(r)) && Run(Next(s, Retry(r)), es)
    ensures s.sessions[s.requests[r].session].owner == Gone && s.requests[r].releases == 1
    ensures var t := Next(s, Retry(r));
      t.requests[|s.requests|].session == |s.sessions| && t.sessions[|s.sessions|].owner == By(|s.requests|)
    ensures var u := After(Next(s, Retry(r)), es); !Enabled(u, Retry(r)) && !Enabled(u, Retry(|s.requests|))
  {
    assert Sound(s.requests[r]) && Held(s.requests[r], r, s.sessions[s.requests[r].session]);
    NeverRetried(Next(s, Retry(r)), es, r);
    NeverRetried(Next(s, Retry(r)), es, |s.requests|);
  }

  lemma VerdictIsRight(s: State, r: nat)
    requires Inv(s) && r < |s.requests| && s.requests[r].stage.Judged?
    ensures s.requests[r].session < |s.sessions|
    ensures var x := s.sessions[s.requests[r].session]; s.requests[r].stage.park <==> x.owed == 0 && x.up && x.control
  {
    HeldAt(s, r);
  }

  // ----------------------------------------------------- the code, in place

  class Transfers {
    var sessions: seq<Session>
    var requests: seq<Request>

    constructor ()
      ensures View() == INITIAL
    {
      sessions, requests := [], [];
    }

    function View(): State
      reads this
    {
      State(sessions, requests)
    }

    // bind, of a parked session or a new one.
    method Bind(parked: Option<nat>) returns (r: nat)
      requires parked.Some? ==> Enabled(View(), Take(parked.value))
      modifies this
      ensures View() == Next(old(View()), if parked.Some? then Take(parked.value) else Dial) && r == |old(requests)|
    {
      r := |requests|;
      match parked {
        case Some(k) =>
          sessions := sessions[k := sessions[k].(owner := By(r), lease := Some(r))];
          requests := requests + [Bound(k, true)];
        case None =>
          requests := requests + [Bound(|sessions|, false)];
          sessions := sessions + [Dialled(r)];
      }
    }

    // The end of open after a RETR that worked.
    method BeginTransfer(r: nat) returns (ok: bool)
      requires Enabled(View(), RetrWorks(r))
      modifies this
      ensures View() == Next(old(View()), RetrWorks(r))
      ensures ok <==> requests[r].stage == Streaming
    {
      var q := requests[r];
      sessions := sessions[q.session := sessions[q.session].(owed := sessions[q.session].owed + 1)];
      if q.cancelled || q.phase != Opening {
        requests := requests[r := q.(stage := Failing(false), failed := true)];
        return false;
      }
      requests := requests[r := q.(phase := Transferring, stage := Streaming)];
      ok := true;
    }

    // The verdict of Close on the last reply.
    method Judge(r: nat, reply: Option<Problem>) returns (park: bool)
      requires Inv(View()) && Enabled(View(), Step.Judge(r, reply))
      modifies this
      ensures Inv(View()) && View() == Next(old(View()), Step.Judge(r, reply))
      ensures r < |requests| && requests[r].stage == Judged(park) && requests[r].session < |sessions|
      ensures var x := sessions[requests[r].session]; park <==> x.owed == 0 && x.up && x.control
    {
      hide Owned, Sound, Standing, Fit;
      StepKeeps(View(), Step.Judge(r, reply));
      var q := requests[r];
      park := Synced(reply) && sessions[q.session].control;
      sessions := sessions[q.session := Answered(sessions[q.session], reply)];
      requests := requests[r := q.(stage := Judged(park))];
      VerdictIsRight(View(), r);
    }

    // ftpPoolPut or discard, as the end of refused, fail and Close decides.
    method Finish(r: nat) returns (parked: bool)
      requires Enabled(View(), Step.Release(r))
      modifies this
      ensures View() == Next(old(View()), Step.Release(r)) && parked == Parks(old(requests)[r])
    {
      var q := requests[r];
      parked := q.stage == Refusing(Some(true)) || q.stage == Judged(true);
      var x := sessions[q.session];
      x := if parked then x.(owner := Parked, lease := None) else x.(owner := Gone, control := false, lease := None);
      sessions := sessions[q.session := x];
      requests := requests[r := q.(stage := Over, releases := q.releases + 1)];
    }
  }
}
