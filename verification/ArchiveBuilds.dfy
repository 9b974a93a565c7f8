// Keyed creates of internal/api/archive.go: reusing a live session, sharing one
// build among identical requests, and retrying on a stale session.
module ArchiveBuilds {
  import opened Wrappers

  type Key = string
  type Sig = string

  // What a create answers with.
  datatype Outcome = Ready(k: nat) | Failure(status: int)

  // noReuse is set for good by markFailed.
  datatype Session = Session(key: Key, sig: Sig, noReuse: bool)

  // A build, led by a client: outcome is known once the session is registered or
  // the build has failed; done once the waiters are released.
  datatype Flight = Flight(key: Key, sig: Sig, leader: nat, outcome: Option<Outcome>, done: bool)

  // A request: about to decide, having found the sessions in tried stale; holding
  // a pinned session; waiting for a flight; leading one; answered, by a flight or
  // by a reused session; gone.
  datatype Client =
    | Asking(key: Key, sig: Sig, tried: set<nat>, retries: nat)
    | Checking(key: Key, sig: Sig, tried: set<nat>, retries: nat, k: nat)
    | Waiting(key: Key, sig: Sig, f: nat)
    | Leading(key: Key, sig: Sig, f: nat)
    | Answered(key: Key, sig: Sig, outcome: Outcome, flight: Option<nat>)
    | Gone

  datatype State = State(sessions: seq<Session>, live: map<Key, nat>, flights: seq<Flight>,
                         builds: map<(Key, Sig), nat>, clients: seq<Client>)

  const INITIAL := State([], map[], [], map[], [])

  datatype Step =
    | Arrive(key: Key, sig: Sig)
    // archiveReuseOrLead; expired: the live session is past its time to live.
    | Decide(c: nat, expired: bool)
    // sourceUnchanged, markFailed and release.
    | Verify(c: nat, same: bool)
    // The two ways archiveBuildSession ends, and the deferred completion.
    | Build(c: nat)
    | Fail(c: nat, status: int)
    | Complete(c: nat)
    | Collect(c: nat)
    | Leave(c: nat)
    // What happens to sessions meanwhile: a build without a flight registers
    // one, one is evicted, one fails an extraction or a checksum.
    | Direct(key: Key)
    | Evict(key: Key)
    | MarkFailed(k: nat)

  predicate Reusable(s: State, key: Key, sig: Sig, expired: bool) {
    key in s.live && s.live[key] < |s.sessions| && s.sessions[s.live[key]].sig == sig
    && !s.sessions[s.live[key]].noReuse && !expired
  }

  predicate Enabled(s: State, e: Step) {
    match e
    case Arrive(_, sig) => sig != ""
    case Decide(c, _) => c < |s.clients| && s.clients[c].Asking?
    case Verify(c, _) => c < |s.clients| && s.clients[c].Checking? && s.clients[c].k < |s.sessions|
    case Build(c) => c < |s.clients| && s.clients[c].Leading? && s.clients[c].f < |s.flights| &&
      s.flights[s.clients[c].f].outcome.None?
    case Fail(c, _) => c < |s.clients| && s.clients[c].Leading? && s.clients[c].f < |s.flights| &&
      s.flights[s.clients[c].f].outcome.None?
    case Complete(c) => c < |s.clients| && s.clients[c].Leading? && s.clients[c].f < |s.flights| &&
      s.flights[s.clients[c].f].outcome.Some?
    case Collect(c) =>
      && c < |s.clients| && s.clients[c].Waiting? && s.clients[c].f < |s.flights|
      && s.flights[s.clients[c].f].done && s.flights[s.clients[c].f].outcome.Some?
    case Leave(c) => c < |s.clients| && s.clients[c].Waiting?
    case Direct(_) => true
    case Evict(key) => key in s.live
    case MarkFailed(k) => k < |s.sessions|
  }

  // delete(archiveBuilds, bk) if it still holds f.
  function Cleared(builds: map<(Key, Sig), nat>, bk: (Key, Sig), f: nat): map<(Key, Sig), nat> {
    if bk in builds && builds[bk] == f then builds - {bk} else builds
  }

  function Marked(sessions: seq<Session>, k: nat): seq<Session>
    requires k < |sessions|
  {
    sessions[k := sessions[k].(noReuse := true)]
  }

  function Next(s: State, e: Step): State
    requires Enabled(s, e)
  {
    match e
    case Arrive(key, sig) => s.(clients := s.clients + [Asking(key, sig, {}, 0)])
    case Decide(c, expired) =>
      var x := s.clients[c];
      if Reusable(s, x.key, x.sig, expired) then
        s.(clients := s.clients[c := Checking(x.key, x.sig, x.tried, x.retries, s.live[x.key])])
      else if (x.key, x.sig) in s.builds then
        s.(clients := s.clients[c := Waiting(x.key, x.sig, s.builds[(x.key, x.sig)])])
      else
        s.(clients := s.clients[c := Leading(x.key, x.sig, |s.flights|)],
           flights := s.flights + [Flight(x.key, x.sig, c, None, false)],
           builds := s.builds[(x.key, x.sig) := |s.flights|])
    case Verify(c, same) =>
      var x := s.clients[c];
      if same then s.(clients := s.clients[c := Answered(x.key, x.sig, Ready(x.k), None)])
      else
        s.(sessions := Marked(s.sessions, x.k),
           clients := s.clients[c := Asking(x.key, x.sig, x.tried + {x.k}, x.retries + 1)])
    case Build(c) =>
      var f := s.clients[c].f;
      var x := s.flights[f];
      s.(sessions := s.sessions + [Session(x.key, x.sig, false)],
         live := s.live[x.key := |s.sessions|],
         flights := s.flights[f := x.(outcome := Some(Ready(|s.sessions|)))],
         builds := Cleared(s.builds, (x.key, x.sig), f))
    case Fail(c, status) =>
      var f := s.clients[c].f;
      s.(flights := s.flights[f := s.flights[f].(outcome := Some(Failure(status)))])
    case Complete(c) =>
      var f := s.clients[c].f;
      var x := s.flights[f];
      s.(flights := s.flights[f := x.(done := true)],
         builds := Cleared(s.builds, (x.key, x.sig), f),
         clients := s.clients[c := Answered(s.clients[c].key, s.clients[c].sig, x.outcome.value, Some(f))])
    case Collect(c) =>
      var x := s.clients[c];
      s.(clients := s.clients[c := Answered(x.key, x.sig, s.flights[x.f].outcome.value, Some(x.f))])
    case Leave(c) => s.(clients := s.clients[c := Gone])
    case Direct(key) =>
      s.(sessions := s.sessions + [Session(key, "", false)], live := s.live[key := |s.sessions|])
    case Evict(key) => s.(live := s.live - {key})
    case MarkFailed(k) => s.(sessions := Marked(s.sessions, k))
  }

  // ---------------------------------------------------------------- invariant

  // A build that has not registered its session and whose completion is due.
  predicate Unregistered(x: Flight) {
    !x.done && !(x.outcome.Some? && x.outcome.value.Ready?)
  }

  // archiveBuilds holds exactly the unregistered builds.
  ghost predicate Indexed(s: State) {
    && (forall f :: 0 <= f < |s.flights| && Unregistered(s.flights[f]) ==>
         (s.flights[f].key, s.flights[f].sig) in s.builds && s.builds[(s.flights[f].key, s.flights[f].sig)] == f)
    && (forall bk :: bk in s.builds ==>
         && s.builds[bk] < |s.flights| && Unregistered(s.flights[s.builds[bk]])
         && s.flights[s.builds[bk]].key == bk.0 && s.flights[s.builds[bk]].sig == bk.1)
  }

  // Until it is done a flight is led by its leader, and by nobody else.
  ghost predicate Led(s: State) {
    && (forall f :: 0 <= f < |s.flights| && !s.flights[f].done ==>
         var x := s.flights[f];
         x.leader < |s.clients| && s.clients[x.leader] == Leading(x.key, x.sig, f))
    && (forall c :: 0 <= c < |s.clients| && s.clients[c].Leading? ==>
         s.clients[c].f < |s.flights| && !s.flights[s.clients[c].f].done && s.flights[s.clients[c].f].leader == c)
  }

  // An outcome names the session that was built for the flight.
  ghost predicate FlightBuilt(s: State, x: Flight) {
    && (x.done ==> x.outcome.Some?)
    && (x.outcome.Some? && x.outcome.value.Ready? ==>
         && x.outcome.value.k < |s.sessions|
         && s.sessions[x.outcome.value.k].key == x.key && s.sessions[x.outcome.value.k].sig == x.sig)
  }

  ghost predicate Built(s: State) {
    && (forall f :: 0 <= f < |s.flights| ==> FlightBuilt(s, s.flights[f]))
    && (forall key :: key in s.live ==> s.live[key] < |s.sessions| && s.sessions[s.live[key]].key == key)
  }

  ghost predicate Payload(s: State, k: nat, key: Key, sig: Sig) {
    k < |s.sessions| && s.sessions[k].key == key && s.sessions[k].sig == sig
  }

  ghost predicate Tried(s: State, tried: set<nat>, retries: nat) {
    retries == |tried| && forall k :: k in tried ==> k < |s.sessions| && s.sessions[k].noReuse
  }

  // What a client carries is true: it is pinned to, waits for, leads and is
  // answered with its own payload only, answers by a flight are that flight's,
  // and every session it has tried stays unusable.
  ghost predicate Honest(s: State, x: Client) {
    match x
    case Asking(_, _, tried, retries) => Tried(s, tried, retries)
    case Checking(key, sig, tried, retries, k) => Payload(s, k, key, sig) && k !in tried && Tried(s, tried, retries)
    case Waiting(key, sig, f) => f < |s.flights| && s.flights[f].key == key && s.flights[f].sig == sig
    case Leading(key, sig, f) => f < |s.flights| && s.flights[f].key == key && s.flights[f].sig == sig
    case Answered(key, sig, outcome, flight) =>
      && (outcome.Ready? ==> Payload(s, outcome.k, key, sig))
      && (flight.Some? ==>
           && flight.value < |s.flights| && s.flights[flight.value].done
           && s.flights[flight.value].outcome == Some(outcome))
    case Gone => true
  }

  ghost predicate Inv(s: State) {
    Indexed(s) && Led(s) && Built(s) && forall c :: 0 <= c < |s.clients| ==> Honest(s, s.clients[c])
  }

  // Adding a flight under a free build key, and ending one.
  lemma IndexedLead(s: State, key: Key, sig: Sig, c: nat)
    requires Indexed(s) && (key, sig) !in s.builds
    ensures Indexed(s.(flights := s.flights + [Flight(key, sig, c, None, false)],
                       builds := s.builds[(key, sig) := |s.flights|]))
  {
  }

  lemma IndexedEnd(s: State, f: nat, x: Flight)
    requires Indexed(s) && f < |s.flights| && x.key == s.flights[f].key && x.sig == s.flights[f].sig && !Unregistered(x)
    ensures Indexed(s.(flights := s.flights[f := x], builds := Cleared(s.builds, (x.key, x.sig), f)))
  {
  }

  lemma IndexedFail(s: State, f: nat, x: Flight)
    requires Indexed(s) && f < |s.flights| && x.key == s.flights[f].key && x.sig == s.flights[f].sig
    requires Unregistered(s.flights[f]) && Unregistered(x)
    ensures Indexed(s.(flights := s.flights[f := x]))
  {
  }

  lemma IndexedSame(s: State, t: State)
    requires Indexed(s) && t.flights == s.flights && t.builds == s.builds
    ensures Indexed(t)
  {
  }

  lemma IndexedKept(s: State, e: Step)
    requires Inv(s) && Enabled(s, e)
    ensures Indexed(Next(s, e))
  {
    hide Honest, Built, Reusable, Marked, Indexed, Cleared;
    var t := Next(s, e);
    match e
    case Decide(c, expired) =>
      var x := s.clients[c];
      if !Reusable(s, x.key, x.sig, expired) && (x.key, x.sig) !in s.builds {
        IndexedLead(s, x.key, x.sig, c);
        IndexedSame(s.(flights := t.flights, builds := t.builds), t);
      } else {
        IndexedSame(s, t);
      }
    case Build(c) =>
      IndexedEnd(s, s.clients[c].f, t.flights[s.clients[c].f]);
      IndexedSame(s.(flights := t.flights, builds := t.builds), t);
    case Fail(c, _) =>
      IndexedFail(s, s.clients[c].f, t.flights[s.clients[c].f]);
      IndexedSame(s.(flights := t.flights), t);
    case Complete(c) =>
      IndexedEnd(s, s.clients[c].f, t.flights[s.clients[c].f]);
      IndexedSame(s.(flights := t.flights, builds := t.builds), t);
    case _ => IndexedSame(s, t);
  }

  // Steps that change nobody's lead.
  lemma LedSame(s: State, t: State)
    requires Led(s) && |s.clients| <= |t.clients| && |t.flights| == |s.flights|
    requires forall c :: 0 <= c < |s.clients| ==>
      t.clients[c] == s.clients[c] || !(s.clients[c].Leading? || t.clients[c].Leading?)
    requires forall c :: |s.clients| <= c < |t.clients| ==> !t.clients[c].Leading?
    requires forall f {:trigger t.flights[f]} :: 0 <= f < |s.flights| ==>
      t.flights[f] == s.flights[f].(outcome := t.flights[f].outcome)
    ensures Led(t)
  {
  }

  lemma LedLead(s: State, t: State, c: nat, x: Flight)
    requires Led(s) && c < |s.clients| && !s.clients[c].Leading? && x.leader == c && !x.done
    requires t.clients == s.clients[c := Leading(x.key, x.sig, |s.flights|)] && t.flights == s.flights + [x]
    ensures Led(t)
  {
  }

  lemma LedEnd(s: State, t: State, c: nat, f: nat)
    requires Led(s) && c < |s.clients| && s.clients[c].Leading? && s.clients[c].f == f < |s.flights|
    requires |t.clients| == |s.clients|
    requires !t.clients[c].Leading? && t.clients == s.clients[c := t.clients[c]]
    requires t.flights == s.flights[f := s.flights[f].(done := true)]
    ensures Led(t)
  {
  }

  lemma LedDecide(s: State, c: nat, expired: bool)
    requires Led(s) && Enabled(s, Decide(c, expired))
    ensures Led(Next(s, Decide(c, expired)))
  {
    hide Reusable, Led;
    var t := Next(s, Decide(c, expired));
    if t.clients[c].Leading? {
      LedLead(s, t, c, t.flights[|s.flights|]);
    } else {
      LedSame(s, t);
    }
  }

  lemma LedKept(s: State, e: Step)
    requires Inv(s) && Enabled(s, e)
    ensures Led(Next(s, e))
  {
    hide Honest, Indexed, Built, Reusable, Marked, Cleared, Led;
    match e
    case Decide(c, expired) => LedDecide(s, c, expired);
    case Complete(c) => LedEnd(s, Next(s, e), c, s.clients[c].f);
    case _ => LedSame(s, Next(s, e));
  }

  // A flight that ends, possibly with the session it built.
  lemma BuiltEnd(s: State, t: State, f: nat)
    requires Built(s) && f < |s.flights| && |t.flights| == |s.flights| && t.flights == s.flights[f := t.flights[f]]
    requires |s.sessions| <= |t.sessions| && t.live == s.live && FlightBuilt(t, t.flights[f])
    requires forall k :: 0 <= k < |s.sessions| ==>
      t.sessions[k].key == s.sessions[k].key && t.sessions[k].sig == s.sessions[k].sig
    ensures Built(t)
  {
  }

  // A new session under its key.
  lemma BuiltRegister(s: State, x: Session)
    requires Built(s)
    ensures Built(s.(sessions := s.sessions + [x], live := s.live[x.key := |s.sessions|]))
  {
  }

  // Steps that touch neither the outcome of a flight nor the map, but for evicting.
  lemma BuiltSame(s: State, t: State)
    requires Built(s) && |t.sessions| == |s.sessions| && s.flights <= t.flights
    requires forall f :: |s.flights| <= f < |t.flights| ==> t.flights[f].outcome.None? && !t.flights[f].done
    requires forall k :: 0 <= k < |s.sessions| ==>
      t.sessions[k].key == s.sessions[k].key && t.sessions[k].sig == s.sessions[k].sig
    requires forall key :: key in t.live ==> key in s.live && t.live[key] == s.live[key]
    ensures Built(t)
  {
  }

  lemma BuiltAnyTable(s: State, t: State)
    requires Built(s) && t.sessions == s.sessions && t.live == s.live && t.flights == s.flights
    ensures Built(t)
  {
  }

  lemma BuiltKept(s: State, e: Step)
    requires Inv(s) && Enabled(s, e)
    ensures Built(Next(s, e))
  {
    hide Honest, Indexed, Led, Reusable, Cleared, Built, FlightBuilt;
    var t := Next(s, e);
    match e
    case Build(c) => BuildBuilt(s, c);
    case Direct(key) => BuiltRegister(s, Session(key, "", false));
    case Fail(c, _) => EndBuilt(s, e, s.clients[c].f);
    case Complete(c) => EndBuilt(s, e, s.clients[c].f);
    case _ => BuiltSame(s, t);
  }

  lemma BuildBuilt(s: State, c: nat)
    requires Built(s) && Enabled(s, Build(c))
    ensures Built(Next(s, Build(c)))
  {
    hide Cleared, Built;
    var f := s.clients[c].f;
    var x := Session(s.flights[f].key, s.flights[f].sig, false);
    BuiltRegister(s, x);
    var u := s.(sessions := s.sessions + [x], live := s.live[x.key := |s.sessions|]);
    BuiltFlight(s, f);
    var w := u.(flights := Next(s, Build(c)).flights);
    BuiltEnd(u, w, f);
    BuiltAnyTable(w, Next(s, Build(c)));
  }

  lemma EndBuilt(s: State, e: Step, f: nat)
    requires Built(s) && Enabled(s, e) && (e.Fail? || e.Complete?) && f == s.clients[e.c].f
    ensures Built(Next(s, e))
  {
    hide Cleared, Built;
    BuiltFlight(s, f);
    var w := s.(flights := Next(s, e).flights);
    BuiltEnd(s, w, f);
    BuiltAnyTable(w, Next(s, e));
  }

  lemma BuiltFlight(s: State, f: nat)
    requires Built(s) && f < |s.flights|
    ensures FlightBuilt(s, s.flights[f])
  {
  }

  // Sessions never become reusable again, and what a done flight says stands.
  ghost predicate Onward(s: State, t: State) {
    && |s.sessions| <= |t.sessions| && |s.flights| <= |t.flights|
    && (forall k :: 0 <= k < |s.sessions| ==>
         && t.sessions[k].key == s.sessions[k].key && t.sessions[k].sig == s.sessions[k].sig
         && (s.sessions[k].noReuse ==> t.sessions[k].noReuse))
    && (forall f :: 0 <= f < |s.flights| ==>
         t.flights[f].key == s.flights[f].key && t.flights[f].sig == s.flights[f].sig)
    && (forall f :: 0 <= f < |s.flights| && s.flights[f].done ==>
         t.flights[f].done && t.flights[f].outcome == s.flights[f].outcome)
  }

  lemma StepOnward(s: State, e: Step)
    requires Inv(s) && Enabled(s, e)
    ensures Onward(s, Next(s, e))
  {
    hide Honest, Indexed, Built, Reusable, Cleared;
  }

  lemma StaysHonest(s: State, t: State, x: Client)
    requires Onward(s, t) && Honest(s, x)
    ensures Honest(t, x)
  {
  }

  lemma VerifyHonest(s: State, c: nat, same: bool)
    requires Enabled(s, Verify(c, same)) && Honest(s, s.clients[c])
    ensures Honest(Next(s, Verify(c, same)), Next(s, Verify(c, same)).clients[c])
  {
    var x, t := s.clients[c], Next(s, Verify(c, same));
    if !same {
      assert |x.tried + {x.k}| == |x.tried| + 1;
      assert |t.sessions| == |s.sessions| && t.sessions[x.k].noReuse;
      assert forall k :: k in x.tried ==> t.sessions[k].noReuse;
    }
  }

  lemma DecideHonest(s: State, c: nat, expired: bool)
    requires Indexed(s) && Built(s) && Enabled(s, Decide(c, expired)) && Honest(s, s.clients[c])
    ensures Honest(Next(s, Decide(c, expired)), Next(s, Decide(c, expired)).clients[c])
  {
    hide Marked, Cleared;
  }

  lemma AnswerHonest(s: State, e: Step, c: nat)
    requires Enabled(s, e) && (e == Complete(c) || e == Collect(c) || e == Leave(c))
    requires Built(s) && Honest(s, s.clients[c])
    ensures Honest(Next(s, e), Next(s, e).clients[c])
  {
    hide Marked, Cleared, Reusable;
  }

  // Only a client's own step moves it.
  lemma OwnStep(s: State, e: Step, c: nat)
    requires Enabled(s, e) && c < |s.clients| && c < |Next(s, e).clients| && Next(s, e).clients[c] != s.clients[c]
    ensures (e.Decide? && e.c == c) || (e.Verify? && e.c == c) || e == Complete(c) || e == Collect(c) || e == Leave(c)
  {
    hide Marked, Cleared, Reusable;
  }

  lemma MovesHonest(s: State, e: Step, c: nat)
    requires Inv(s) && Enabled(s, e) && c < |s.clients| && c < |Next(s, e).clients| &&
      Next(s, e).clients[c] != s.clients[c]
    ensures Honest(Next(s, e), Next(s, e).clients[c])
  {
    hide Cleared, Led, Indexed, Built, Honest, Next, Enabled;
    assert Honest(s, s.clients[c]);
    OwnStep(s, e, c);
    match e
    case Decide(_, expired) => DecideHonest(s, c, expired);
    case Verify(_, same) => VerifyHonest(s, c, same);
    case _ => AnswerHonest(s, e, c);
  }

  lemma HonestKept(s: State, e: Step)
    requires Inv(s) && Enabled(s, e)
    ensures forall c :: 0 <= c < |Next(s, e).clients| ==> Honest(Next(s, e), Next(s, e).clients[c])
  {
    hide Onward, Indexed, Built, Led, Honest, Enabled, Next;
    StepOnward(s, e);
    var t := Next(s, e);
    Arrivals(s, e);
    forall c | 0 <= c < |t.clients|
      ensures Honest(t, t.clients[c])
    {
      if c < |s.clients| {
        if t.clients[c] == s.clients[c] {
          StaysHonest(s, t, s.clients[c]);
        } else {
          MovesHonest(s, e, c);
        }
      }
    }
  }

  lemma Arrivals(s: State, e: Step)
    requires Enabled(s, e)
    ensures |s.clients| <= |Next(s, e).clients|
    ensures forall c :: |s.clients| <= c < |Next(s, e).clients| ==> Honest(Next(s, e), Next(s, e).clients[c])
  {
  }

  lemma StepKeeps(s: State, e: Step)
    requires Inv(s) && Enabled(s, e)
    ensures Inv(Next(s, e))
  {
    hide Indexed, Led, Built, Honest, Enabled, Next;
    IndexedKept(s, e);
    LedKept(s, e);
    BuiltKept(s, e);
    HonestKept(s, e);
  }

  // ------------------------------------------------------------- what is kept

  // At most one build of a key and payload is unregistered.
  lemma OneBuildAtATime(s: State, f: nat, g: nat)
    requires Inv(s) && f < |s.flights| && g < |s.flights| && f != g
    requires Unregistered(s.flights[f]) && Unregistered(s.flights[g])
    ensures (s.flights[f].key, s.flights[f].sig) != (s.flights[g].key, s.flights[g].sig)
  {
    hide Led, Built, Honest;
  }

  // A flight leaves archiveBuilds in the very step that registers its session,
  // or after it has failed.
  lemma NoGap(s: State, e: Step, bk: (Key, Sig))
    requires Inv(s) && Enabled(s, e) && bk in s.builds && bk !in Next(s, e).builds
    ensures s.builds[bk] < |s.flights|
    ensures var t := Next(s, e); var x := s.flights[s.builds[bk]];
      if e.Build? then Reusable(t, bk.0, bk.1, false) && t.live[bk.0] == |s.sessions|
      else e.Complete? && x.outcome.Some? && x.outcome.value.Failure?
  {
    hide Led, Built, Honest;
  }

  // A create starts a build only if every earlier build of the same payload has
  // failed, or the session it made is replaced, evicted, marked or expired.
  lemma NoDuplicateBuild(s: State, c: nat, expired: bool, f: nat)
    requires Inv(s) && Enabled(s, Decide(c, expired)) && Next(s, Decide(c, expired)).clients[c].Leading?
    requires f < |s.flights| && s.flights[f].key == s.clients[c].key && s.flights[f].sig == s.clients[c].sig
    ensures var x := s.flights[f];
      && x.outcome.Some?
      && (x.outcome.value.Failure? ==> x.done)
      && (x.outcome.value.Ready? ==>
           var k := x.outcome.value.k;
           expired || !(x.key in s.live && s.live[x.key] == k) || s.sessions[k].noReuse)
  {
    hide Led, Honest;
  }

  // Nobody waits for a flight that can no longer end: its leader is there, with
  // its next step enabled.
  lemma NobodyIsStranded(s: State, f: nat, status: int)
    requires Inv(s) && f < |s.flights| && !s.flights[f].done
    ensures var c := s.flights[f].leader;
      && c < |s.clients| && s.clients[c].Leading? && s.clients[c].f == f
      && (Enabled(s, Complete(c)) || (Enabled(s, Build(c)) && Enabled(s, Fail(c, status))))
  {
    hide Indexed, Built, Honest;
  }

  ghost predicate Run(s: State, es: seq<Step>)
    decreases |es|
  {
    es == [] || (Enabled(s, es[0]) && Run(Next(s, es[0]), es[1..]))
  }

  ghost function After(s: State, es: seq<Step>): State
    requires Run(s, es)
    decreases |es|
  {
    if es == [] then s else After(Next(s, es[0]), es[1..])
  }

  lemma {:induction false} RunKeeps(s: State, es: seq<Step>)
    requires Inv(s) && Run(s, es)
    ensures Inv(After(s, es))
    decreases |es|
  {
    hide Inv, Next, Enabled;
    if es != [] {
      StepKeeps(s, es[0]);
      RunKeeps(Next(s, es[0]), es[1..]);
    }
  }

  lemma Initially()
    ensures Inv(INITIAL)
  {
  }

  // Over every interleaving, everybody who shared a build answers the same, which
  // is what its leader's build came to.
  lemma SharersAgree(es: seq<Step>, c: nat, d: nat)
    requires Run(INITIAL, es)
    requires var s := After(INITIAL, es);
      && c < |s.clients| && d < |s.clients| && s.clients[c].Answered? && s.clients[d].Answered?
      && s.clients[c].flight.Some? && s.clients[c].flight == s.clients[d].flight
    ensures var s := After(INITIAL, es); var f := s.clients[c].flight.value;
      && f < |s.flights| && s.flights[f].outcome == Some(s.clients[c].outcome)
      && s.clients[c].outcome == s.clients[d].outcome
  {
    hide Run, After, Indexed, Led, Built;
    Initially();
    RunKeeps(INITIAL, es);
    var s := After(INITIAL, es);
    assert Honest(s, s.clients[c]) && Honest(s, s.clients[d]);
  }

  // ---------------------------------------------- everybody's own payload

  // Client c is there and still asks for key and payload sig, or has left.
  ghost predicate Asks(s: State, c: nat, key: Key, sig: Sig) {
    c < |s.clients| && (s.clients[c].Gone? || (s.clients[c].key == key && s.clients[c].sig == sig))
  }

  lemma StillAsks(s: State, e: Step, c: nat, key: Key, sig: Sig)
    requires Enabled(s, e) && Asks(s, c, key, sig)
    ensures Asks(Next(s, e), c, key, sig)
  {
    hide Reusable, Cleared, Marked;
  }

  lemma {:induction false} AsksThroughout(s: State, es: seq<Step>, c: nat, key: Key, sig: Sig)
    requires Inv(s) && Run(s, es) && Asks(s, c, key, sig)
    ensures Inv(After(s, es)) && Asks(After(s, es), c, key, sig)
    decreases |es|
  {
    hide Inv, Next, Enabled, Asks;
    if es != [] {
      StepKeeps(s, es[0]);
      StillAsks(s, es[0], c, key, sig);
      AsksThroughout(Next(s, es[0]), es[1..], c, key, sig);
    }
  }

  // In every continuation of the arrival of a create, a session it is answered
  // with, reused or built by whoever, is one of its own key and payload.
  lemma AnsweredWithOwnPayload(s: State, key: Key, sig: Sig, es: seq<Step>)
    requires Inv(s) && Enabled(s, Arrive(key, sig)) && Run(Next(s, Arrive(key, sig)), es)
    ensures var u := After(Next(s, Arrive(key, sig)), es); var c := |s.clients|;
      && c < |u.clients|
      && (u.clients[c].Answered? && u.clients[c].outcome.Ready? ==>
           var k := u.clients[c].outcome.k;
           k < |u.sessions| && u.sessions[k].key == key && u.sessions[k].sig == sig)
  {
    hide Run, After, Indexed, Led, Built;
    StepKeeps(s, Arrive(key, sig));
    AsksThroughout(Next(s, Arrive(key, sig)), es, |s.clients|, key, sig);
    var u := After(Next(s, Arrive(key, sig)), es);
    assert Honest(u, u.clients[|s.clients|]);
  }

  // A create pins the live session exactly if that is of its own payload, not
  // marked and not expired, and else joins the build of its payload, if there is
  // one, or starts it.
  lemma WhatACreateDoes(s: State, c: nat, expired: bool)
    requires Inv(s) && Enabled(s, Decide(c, expired))
    ensures var x, t := s.clients[c], Next(s, Decide(c, expired)); var y := t.clients[c];
      && t.sessions == s.sessions && t.live == s.live
      && (y.Checking? <==>
           && x.key in s.live && s.live[x.key] < |s.sessions| && s.sessions[s.live[x.key]].sig == x.sig
           && !s.sessions[s.live[x.key]].noReuse && !expired)
      && (y.Checking? ==> y.k == s.live[x.key] && s.sessions[y.k].key == x.key)
      && (y.Waiting? ==> y.f < |s.flights| && s.flights[y.f].key == x.key && s.flights[y.f].sig == x.sig)
      && (y.Leading? ==>
           && y.f == |s.flights| < |t.flights| && t.flights[y.f] == Flight(x.key, x.sig, c, None, false)
           && forall f :: 0 <= f < |s.flights| && Unregistered(s.flights[f]) ==>
                (s.flights[f].key, s.flights[f].sig) != (x.key, x.sig))
      && (y.Checking? || y.Waiting? || y.Leading?)
  {
    hide Led, Honest;
  }

  // A reused session is only ever the answer after it was found unchanged.
  lemma OnlyVerifiedIsReused(s: State, e: Step, c: nat)
    requires Enabled(s, e) && c < |s.clients| && c < |Next(s, e).clients|
    requires Next(s, e).clients[c].Answered? && Next(s, e).clients[c].flight.None? && !s.clients[c].Answered?
    ensures e == Verify(c, true) && s.clients[c].Checking?
    ensures Next(s, e).clients[c].outcome == Ready(s.clients[c].k)
  {
    hide Reusable, Cleared, Marked;
  }

  // And these steps do answer: with the session found unchanged, and with what the
  // flight came to.
  lemma AnswersArrive(s: State, e: Step)
    requires Inv(s) && Enabled(s, e) && ((e.Verify? && e.same) || e.Complete? || e.Collect?)
    ensures var x := s.clients[e.c];
      Next(s, e).clients[e.c] ==
      if e.Verify? then Answered(x.key, x.sig, Ready(x.k), None)
      else Answered(x.key, x.sig, s.flights[x.f].outcome.value, Some(x.f))
  {
    hide Led, Honest, Indexed, Built, Cleared, Reusable, Marked;
  }

  // A session is marked by failing, and by the create that finds it stale, which
  // then asks again; by nothing else.
  lemma WhoMarks(s: State, e: Step, k: nat)
    requires Inv(s) && Enabled(s, e) && k < |s.sessions|
    ensures k < |Next(s, e).sessions|
    ensures Next(s, e).sessions[k].noReuse <==>
      s.sessions[k].noReuse || e == MarkFailed(k) || (e.Verify? && !e.same && s.clients[e.c].k == k)
    ensures e.Verify? && !e.same ==>
      var x, y := s.clients[e.c], Next(s, e).clients[e.c];
      y.Asking? && y.key == x.key && y.sig == x.sig && y.retries == x.retries + 1
  {
    hide Led, Honest, Indexed, Built, Cleared, Reusable;
  }

  lemma {:induction false} MarkedThroughout(s: State, es: seq<Step>, k: nat)
    requires Inv(s) && Run(s, es) && k < |s.sessions| && s.sessions[k].noReuse
    ensures var u := After(s, es); Inv(u) && k < |u.sessions| && u.sessions[k].noReuse
    decreases |es|
  {
    hide Inv, Next, Enabled;
    if es != [] {
      StepKeeps(s, es[0]);
      WhoMarks(s, es[0], k);
      MarkedThroughout(Next(s, es[0]), es[1..], k);
    }
  }

  // In no continuation is a marked session pinned by a create again.
  lemma MarkedIsNeverReused(s: State, es: seq<Step>, k: nat, c: nat, expired: bool)
    requires Inv(s) && Run(s, es) && k < |s.sessions| && s.sessions[k].noReuse
    requires Enabled(After(s, es), Decide(c, expired))
    ensures var y := Next(After(s, es), Decide(c, expired)).clients[c]; y.Checking? ==> y.k != k
  {
    hide Inv, Run, After, Next, Enabled;
    MarkedThroughout(s, es, k);
    WhatACreateDoes(After(s, es), c, expired);
  }

  // The live session of a key changes by a registration under it and by eviction
  // only.
  lemma WhoIsLive(s: State, e: Step, key: Key)
    requires Inv(s) && Enabled(s, e)
    ensures var t := Next(s, e);
      if (e.Direct? && e.key == key) || (e.Build? && s.flights[s.clients[e.c].f].key == key) then
        && key in t.live && t.live[key] == |s.sessions| < |t.sessions|
        && t.sessions[|s.sessions|].key == key && !t.sessions[|s.sessions|].noReuse
        && t.sessions[|s.sessions|].sig == (if e.Direct? then "" else s.flights[s.clients[e.c].f].sig)
      else if e == Evict(key) then key !in t.live
      else (key in t.live <==> key in s.live) && (key in s.live ==> t.live[key] == s.live[key])
  {
    hide Led, Honest, Indexed, Built, Cleared, Reusable;
  }

  // A flight comes to the session its leader registers or to its leader's error.
  lemma WhatAFlightComesTo(s: State, e: Step, f: nat)
    requires Inv(s) && Enabled(s, e) && f < |s.flights|
    ensures f < |Next(s, e).flights|
    ensures var x, y := s.flights[f], Next(s, e).flights[f];
      if e == Build(x.leader) && s.clients[x.leader].f == f then y.outcome == Some(Ready(|s.sessions|))
      else if e.Fail? && e.c == x.leader && s.clients[x.leader].f == f then y.outcome == Some(Failure(e.status))
      else y.outcome == x.outcome
  {
    hide Honest, Indexed, Built, Cleared, Reusable;
  }

  // Each retry of a create has marked a further session unusable, so there are
  // never more retries than sessions.
  lemma RetriesAreBounded(es: seq<Step>, c: nat)
    requires Run(INITIAL, es)
    requires var s := After(INITIAL, es); c < |s.clients| && (s.clients[c].Asking? || s.clients[c].Checking?)
    ensures var s := After(INITIAL, es); var x := s.clients[c];
      && x.retries == |x.tried| <= |s.sessions|
      && (forall k :: k in x.tried ==> k < |s.sessions| && s.sessions[k].noReuse)
      && (x.Checking? ==> x.k !in x.tried)
  {
    hide Run, After, Indexed, Led, Built;
    Initially();
    RunKeeps(INITIAL, es);
    var s := After(INITIAL, es);
    assert Honest(s, s.clients[c]);
    Below(s.clients[c].tried, |s.sessions|);
  }

  lemma {:induction false} Below(ks: set<nat>, n: nat)
    requires forall k :: k in ks ==> k < n
    ensures |ks| <= n
  {
    if n == 0 {
      assert ks == {};
    } else {
      Below(ks - {n - 1}, n - 1);
    }
  }

  // ----------------------------------------------------- the code, in place

  class Creates {
    var sessions: seq<Session>
    var live: map<Key, nat>
    var flights: seq<Flight>
    var builds: map<(Key, Sig), nat>
    // Requests and where they are; the code keeps these on its stacks.
    var clients: seq<Client>

    constructor ()
      ensures View() == INITIAL
    {
      sessions, live, flights, builds, clients := [], map[], [], map[], [];
    }

    function View(): State
      reads this
    {
      State(sessions, live, flights, builds, clients)
    }

    // archiveReuseOrLead for request c, whose live session may be expired.
    method ReuseOrLead(c: nat, expired: bool) returns (reuse: Option<nat>, f: nat, leader: bool)
      requires Enabled(View(), Decide(c, expired))
      modifies this
      ensures View() == Next(old(View()), Decide(c, expired))
      ensures clients[c] == var x := old(clients)[c];
        if reuse.Some? then Checking(x.key, x.sig, x.tried, x.retries, reuse.value)
        else if leader then Leading(x.key, x.sig, f) else Waiting(x.key, x.sig, f)
      ensures var x := old(clients)[c];
        && (reuse.Some? <==>
             && x.key in live && live[x.key] < |sessions| && sessions[live[x.key]].sig == x.sig
             && !sessions[live[x.key]].noReuse && !expired)
        && (reuse.Some? ==> reuse.value == live[x.key])
      ensures sessions == old(sessions) && live == old(live)
    {
      var x := clients[c];
      reuse, f, leader := None, 0, false;
      if x.key in live && live[x.key] < |sessions| {
        var cur := sessions[live[x.key]];
        if cur.sig == x.sig && !cur.noReuse && !expired {
          reuse := Some(live[x.key]);
          clients := clients[c := Checking(x.key, x.sig, x.tried, x.retries, live[x.key])];
          return;
        }
      }
      if (x.key, x.sig) in builds {
        f := builds[(x.key, x.sig)];
        clients := clients[c := Waiting(x.key, x.sig, f)];
        return;
      }
      f, leader := |flights|, true;
      flights := flights + [Flight(x.key, x.sig, c, None, false)];
      builds := builds[(x.key, x.sig) := f];
      clients := clients[c := Leading(x.key, x.sig, f)];
    }

    // The deferred completion of archiveBuildAndRegister.
    method Finish(c: nat) returns (res: Outcome)
      requires Enabled(View(), Complete(c))
      modifies this
      ensures View() == Next(old(View()), Complete(c)) && Some(res) == old(flights[clients[c].f].outcome)
    {
      var f := clients[c].f;
      var bk := (flights[f].key, flights[f].sig);
      if bk in builds && builds[bk] == f {
        builds := builds - {bk};
      }
      res := flights[f].outcome.value;
      flights := flights[f := flights[f].(done := true)];
      clients := clients[c := Answered(clients[c].key, clients[c].sig, res, Some(f))];
    }
  }
}
