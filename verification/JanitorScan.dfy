// The janitor's memo of its last cache walk (internal/engine/engine.go): when a
// tick may skip measuring the cache on disk.
module JanitorScan {
  import opened Sums
  import opened Wrappers

  type Engine = nat

  // Four ticks of 30 seconds, in nanoseconds.
  const MAX_AGE := 120_000_000_000

  // diskScan: the memo, if any, and the counters sampled before the last walk.
  datatype Memo = Memo(at: int, total: nat, dl: map<Engine, nat>)
  datatype Scan = Scan(memo: Option<Memo>, prev: Option<map<Engine, nat>>)

  // A walk under way: engines whose counter is yet to be sampled, the one sampled
  // but not yet measured, and what was found.
  datatype Walk = Walk(todo: set<Engine>, sampled: Option<Engine>, dl: map<Engine, nat>, sizes: map<Engine, nat>)

  // received counts the peer data bytes of an engine and landed those written to
  // its directory, which held base bytes when the engine was loaded. Engines that
  // were unloaded keep their counters; an engine loaded again is a new one.
  datatype State = State(live: set<Engine>, base: map<Engine, nat>, received: map<Engine, nat>,
                         landed: map<Engine, nat>, scan: Scan, walk: Option<Walk>, clock: int)

  datatype Step =
    | Load(e: Engine, base: nat)
    | Unload(e: Engine)
    | Receive(e: Engine, n: nat)
    | Land(e: Engine, n: nat)
    | Pass(ns: nat)
    // evict with a positive budget: the snapshot, the loop, and observe.
    | WalkBegin
    | Sample(e: Engine)
    | Measure(e: Engine)
    | WalkEnd(budget: int)

  const INITIAL := State({}, map[], map[], map[], Scan(None, None), None, 0)

  predicate Known(s: State, e: Engine) {
    e in s.base && e in s.received && e in s.landed
  }

  predicate Enabled(s: State, step: Step) {
    match step
    case Load(e, _) => e !in s.base
    case Unload(e) => e in s.live
    case Receive(e, _) => e in s.live && Known(s, e)
    case Land(e, n) => Known(s, e) && s.landed[e] + n <= s.received[e]
    case Pass(_) => true
    case WalkBegin => s.walk.None? && s.live != {}
    case Sample(e) => s.walk.Some? && s.walk.value.sampled.None? && e in s.walk.value.todo && Known(s, e)
    case Measure(e) => s.walk.Some? && s.walk.value.sampled == Some(e) && Known(s, e)
    case WalkEnd(_) => s.walk.Some? && s.walk.value.sampled.None? && s.walk.value.todo == {}
  }

  // What observe decides: every counter is the one of the walk before.
  predicate Stable(prev: Option<map<Engine, nat>>, dl: map<Engine, nat>) {
    prev.Some? && |prev.value| == |dl| && forall e :: e in dl ==> e in prev.value && prev.value[e] == dl[e]
  }

  function Observed(scan: Scan, within: bool, total: nat, dl: map<Engine, nat>, now: int): Scan {
    Scan(if within && Stable(scan.prev, dl) then Some(Memo(now, total, dl)) else None, Some(dl))
  }

  ghost function Next(s: State, step: Step): State
    requires Enabled(s, step)
  {
    match step
    case Load(e, base) =>
      s.(live := s.live + {e}, base := s.base[e := base], received := s.received[e := 0], landed := s.landed[e := 0])
    case Unload(e) => s.(live := s.live - {e})
    case Receive(e, n) => s.(received := s.received[e := s.received[e] + n])
    case Land(e, n) => s.(landed := s.landed[e := s.landed[e] + n])
    case Pass(ns) => s.(clock := s.clock + ns)
    case WalkBegin => s.(walk := Some(Walk(s.live, None, map[], map[])))
    case Sample(e) =>
      var w := s.walk.value;
      s.(walk := Some(w.(todo := w.todo - {e}, sampled := Some(e), dl := w.dl[e := s.received[e]])))
    case Measure(e) =>
      var w := s.walk.value;
      s.(walk := Some(w.(sampled := None, sizes := w.sizes[e := s.base[e] + s.landed[e]])))
    case WalkEnd(budget) =>
      var w := s.walk.value;
      var total := Sum(w.sizes, w.sizes.Keys);
      s.(walk := None, scan := Observed(s.scan, total <= budget, total, w.dl, s.clock))
  }

  // What the janitor relies on: by the time an engine's directory is measured,
  // the bytes counted for it before the previous walk are on disk.
  predicate Prompt(s: State, step: Step) {
    step.Measure? && s.scan.prev.Some? && step.e in s.scan.prev.value && step.e in s.landed ==>
      s.scan.prev.value[step.e] <= s.landed[step.e]
  }

  // cacheQuiet.
  predicate Quiet(s: State, budget: int)
    requires s.live <= s.received.Keys
  {
    && s.scan.memo.Some? && s.scan.memo.value.total <= budget && s.clock - s.scan.memo.value.at < MAX_AGE
    && |s.live| == |s.scan.memo.value.dl|
    && forall e :: e in s.live ==> e in s.scan.memo.value.dl && s.received[e] == s.scan.memo.value.dl[e]
  }

  // ---------------------------------------------------------------- invariant

  ghost predicate Counted(s: State) {
    && s.live <= s.base.Keys && s.base.Keys == s.received.Keys == s.landed.Keys
    && forall e :: e in s.base ==> s.landed[e] <= s.received[e]
  }

  // What a walk taken now would measure.
  ghost function Footprint(s: State): (r: map<Engine, nat>)
    requires Counted(s)
    ensures r.Keys == s.live
  {
    map e | e in s.live :: s.base[e] + s.landed[e]
  }

  // A reading of size for a counter value n is exact as long as the counter
  // stands at n.
  ghost predicate Exact(s: State, e: Engine, n: nat, size: nat) {
    Known(s, e) && n <= s.received[e] && (s.received[e] == n ==> s.landed[e] == n && size == s.base[e] + n)
  }

  ghost predicate SampledBefore(s: State) {
    s.scan.prev.Some? ==>
      forall e :: e in s.scan.prev.value ==> e in s.received && s.scan.prev.value[e] <= s.received[e]
  }

  // A walk's readings, for engines whose counter has not moved since the last.
  ghost predicate Walking(s: State) {
    s.walk.Some? ==>
      var w := s.walk.value;
      && w.todo <= s.base.Keys
      && (w.sampled.Some? ==> w.sampled.value in w.dl && w.sampled.value !in w.sizes)
      && w.dl.Keys == w.sizes.Keys + (if w.sampled.Some? then {w.sampled.value} else {})
      && (forall e :: e in w.dl ==> e !in w.todo && e in s.received && w.dl[e] <= s.received[e])
      && (forall e :: e in w.sizes && s.scan.prev.Some? && e in s.scan.prev.value && s.scan.prev.value[e] == w.dl[e] ==>
           Exact(s, e, w.dl[e], w.sizes[e]))
  }

  // sizes are the readings behind the memo.
  ghost predicate Remembered(s: State, sizes: map<Engine, nat>) {
    s.scan.memo.Some? ==>
      var m := s.scan.memo.value;
      && sizes.Keys == m.dl.Keys && m.total == Sum(sizes, sizes.Keys)
      && forall e :: e in m.dl ==> Exact(s, e, m.dl[e], sizes[e])
  }

  ghost predicate Inv(s: State, sizes: map<Engine, nat>) {
    Counted(s) && SampledBefore(s) && Walking(s) && Remembered(s, sizes)
  }

  // The readings behind the memo after a step.
  ghost function Readings(s: State, step: Step, sizes: map<Engine, nat>): map<Engine, nat>
    requires Enabled(s, step)
  {
    if step.WalkEnd? then s.walk.value.sizes else sizes
  }

  lemma CountedKept(s: State, step: Step)
    requires Counted(s) && Enabled(s, step)
    ensures Counted(Next(s, step))
  {
  }

  // Counters only grow, and what has landed stays.
  lemma ExactKept(s: State, step: Step, e: Engine, n: nat, size: nat)
    requires Counted(s) && Enabled(s, step) && Exact(s, e, n, size)
    ensures Exact(Next(s, step), e, n, size)
  {
  }

  lemma SampledKept(s: State, step: Step)
    requires Counted(s) && SampledBefore(s) && Walking(s) && Enabled(s, step)
    ensures SampledBefore(Next(s, step))
  {
  }

  // Engines and their counters only grow beside a walk, which they leave alone.
  lemma WalkingBeside(s: State, step: Step)
    requires Counted(s) && Walking(s) && Enabled(s, step) && s.walk.Some?
    requires step.Load? || step.Unload? || step.Receive? || step.Land? || step.Pass?
    ensures Walking(Next(s, step))
  {
    hide Exact, Counted;
    var w, t := s.walk.value, Next(s, step);
    Growing(s, step);
    forall e | e in w.sizes && s.scan.prev.Some? && e in s.scan.prev.value && s.scan.prev.value[e] == w.dl[e]
      ensures Exact(t, e, w.dl[e], w.sizes[e])
    {
      ExactKept(s, step, e, w.dl[e], w.sizes[e]);
    }
  }

  lemma Growing(s: State, step: Step)
    requires Counted(s) && Enabled(s, step)
    ensures s.base.Keys <= Next(s, step).base.Keys
    ensures forall e :: e in s.received ==> e in Next(s, step).received && s.received[e] <= Next(s, step).received[e]
  {
  }

  lemma SampleKeeps(s: State, e: Engine)
    requires Counted(s) && Walking(s) && Enabled(s, Sample(e))
    ensures Walking(Next(s, Sample(e)))
  {
    hide Exact, Counted;
    var w, t := s.walk.value, Next(s, Sample(e));
    forall x | x in w.sizes && Exact(s, x, w.dl[x], w.sizes[x])
      ensures Exact(t, x, w.dl[x], w.sizes[x])
    {
      ExactKept(s, Sample(e), x, w.dl[x], w.sizes[x]);
    }
  }

  // A counter that stands where the last walk saw it stands for bytes that have
  // all landed.
  lemma MeasureKeeps(s: State, e: Engine)
    requires Counted(s) && Walking(s) && Enabled(s, Measure(e)) && Prompt(s, Measure(e))
    ensures Walking(Next(s, Measure(e)))
  {
  }

  lemma WalkingKept(s: State, step: Step)
    requires Counted(s) && Walking(s) && Enabled(s, step) && Prompt(s, step)
    ensures Walking(Next(s, step))
  {
    hide Exact, Counted, Prompt;
    match step
    case WalkBegin =>
      assert s.live <= s.base.Keys by { Based(s); }
    case Sample(e) => SampleKeeps(s, e);
    case Measure(e) => MeasureKeeps(s, e);
    case WalkEnd(_) =>
    case _ =>
      if s.walk.Some? {
        WalkingBeside(s, step);
      }
  }

  lemma Based(s: State)
    requires Counted(s)
    ensures s.live <= s.base.Keys
  {
  }

  lemma RememberedKept(s: State, step: Step, sizes: map<Engine, nat>)
    requires Inv(s, sizes) && Enabled(s, step) && !step.WalkEnd?
    ensures Remembered(Next(s, step), sizes)
  {
    hide Exact, SampledBefore, Walking;
    if s.scan.memo.Some? {
      var m := s.scan.memo.value;
      forall e | e in m.dl
        ensures Exact(Next(s, step), e, m.dl[e], sizes[e])
      {
        ExactKept(s, step, e, m.dl[e], sizes[e]);
      }
    }
  }

  lemma MemoIsExact(s: State, budget: int)
    requires Walking(s) && Enabled(s, WalkEnd(budget))
    ensures Remembered(Next(s, WalkEnd(budget)), s.walk.value.sizes)
  {
    hide Exact, Sum;
    var w, t := s.walk.value, Next(s, WalkEnd(budget));
    if t.scan.memo.Some? {
      forall e | e in w.dl
        ensures Exact(t, e, w.dl[e], w.sizes[e])
      {
        assert Exact(s, e, w.dl[e], w.sizes[e]);
        ExactStays(s, t, e, w.dl[e], w.sizes[e]);
      }
    }
  }

  lemma ExactStays(s: State, t: State, e: Engine, n: nat, size: nat)
    requires Exact(s, e, n, size) && t.base == s.base && t.received == s.received && t.landed == s.landed
    ensures Exact(t, e, n, size)
  {
  }

  lemma StepKeeps(s: State, step: Step, sizes: map<Engine, nat>)
    requires Inv(s, sizes) && Enabled(s, step) && Prompt(s, step)
    ensures Inv(Next(s, step), Readings(s, step, sizes))
  {
    hide Next, Enabled, Counted, SampledBefore, Walking, Remembered;
    CountedKept(s, step);
    SampledKept(s, step);
    WalkingKept(s, step);
    if step.WalkEnd? {
      MemoIsExact(s, step.budget);
    } else {
      RememberedKept(s, step, sizes);
    }
  }

  // --------------------------------------------------------------------- runs

  ghost predicate Run(s: State, steps: seq<Step>)
    decreases |steps|
  {
    steps == [] || (Enabled(s, steps[0]) && Prompt(s, steps[0]) && Run(Next(s, steps[0]), steps[1..]))
  }

  ghost function After(s: State, steps: seq<Step>): State
    requires Run(s, steps)
    decreases |steps|
  {
    if steps == [] then s else After(Next(s, steps[0]), steps[1..])
  }

  lemma {:induction false} RunKeeps(s: State, steps: seq<Step>, sizes: map<Engine, nat>)
    returns (last: map<Engine, nat>)
    requires Inv(s, sizes) && Run(s, steps)
    ensures Inv(After(s, steps), last)
    decreases |steps|
  {
    hide Inv, Next, Enabled, Prompt;
    if steps == [] {
      last := sizes;
    } else {
      StepKeeps(s, steps[0], sizes);
      last := RunKeeps(Next(s, steps[0]), steps[1..], Readings(s, steps[0], sizes));
    }
  }

  lemma {:induction false} AllOf(part: set<Engine>, all: set<Engine>)
    requires part <= all && |part| == |all|
    ensures part == all
  {
    assert |all - part| == 0;
  }

  lemma QuietIsExact(s: State, sizes: map<Engine, nat>, budget: int)
    requires Inv(s, sizes) && Quiet(s, budget)
    ensures Sum(Footprint(s), s.live) == s.scan.memo.value.total
  {
    var m := s.scan.memo.value;
    assert s.live <= m.dl.Keys && |m.dl| == |m.dl.Keys|;
    AllOf(s.live, m.dl.Keys);
    forall e | e in s.live
      ensures Footprint(s)[e] == sizes[e]
    {
      assert Exact(s, e, m.dl[e], sizes[e]);
    }
    SumSame(Footprint(s), sizes, s.live);
  }

  // For every sequence of ticks, downloads and engines coming and going: when
  // cacheQuiet holds, a walk taken now would measure exactly the memoised total,
  // which is within the budget, so that evict would return without evicting.
  lemma QuietTicksNeedNoWalk(steps: seq<Step>, budget: int)
    requires Run(INITIAL, steps)
    requires var s := After(INITIAL, steps); s.live <= s.received.Keys && Quiet(s, budget)
    ensures var s := After(INITIAL, steps);
      && Counted(s) && s.scan.memo.Some?
      && Sum(Footprint(s), s.live) == s.scan.memo.value.total <= budget
  {
    hide Run, After;
    var sizes := RunKeeps(INITIAL, steps, map[]);
    QuietIsExact(After(INITIAL, steps), sizes, budget);
  }

  // -------------------------------------------------------- a still cache

  // A walk leaves a memo exactly if the cache was within budget and no counter has
  // moved, and no engine come or gone, since the walk before.
  lemma WhenMemoised(scan: Scan, within: bool, total: nat, dl: map<Engine, nat>, now: int)
    ensures var r := Observed(scan, within, total, dl, now);
      && r.prev == Some(dl)
      && (r.memo.Some? <==> within && scan.prev == Some(dl))
      && (r.memo.Some? ==> r.memo.value == Memo(now, total, dl))
  {
    if Stable(scan.prev, dl) {
      assert dl.Keys <= scan.prev.value.Keys && |scan.prev.value| == |scan.prev.value.Keys| && |dl| == |dl.Keys|;
      AllOf(dl.Keys, scan.prev.value.Keys);
      assert scan.prev.value == dl;
    }
  }

  // Everything received has landed.
  ghost predicate Settled(s: State) {
    Counted(s) && SampledBefore(s) && forall e :: e in s.live ==> s.landed[e] == s.received[e]
  }

  predicate Distinct(order: seq<Engine>) {
    forall i, j :: 0 <= i < j < |order| ==> order[i] != order[j]
  }

  function Part(m: map<Engine, nat>, order: seq<Engine>): map<Engine, nat> {
    map e | e in m && e in order :: m[e]
  }

  // The loop of evict over the engines in the given order.
  function Visits(order: seq<Engine>): seq<Step> {
    if order == [] then [] else [Sample(order[0]), Measure(order[0])] + Visits(order[1..])
  }

  function Round(order: seq<Engine>, budget: int): seq<Step> {
    [WalkBegin] + Visits(order) + [WalkEnd(budget)]
  }

  lemma {:induction false} RunJoins(s: State, steps: seq<Step>, more: seq<Step>)
    requires Run(s, steps) && Run(After(s, steps), more)
    ensures Run(s, steps + more) && After(s, steps + more) == After(After(s, steps), more)
    decreases |steps|
  {
    hide Next, Enabled, Prompt;
    if steps == [] {
      assert steps + more == more;
    } else {
      RunJoins(Next(s, steps[0]), steps[1..], more);
      assert (steps + more)[1..] == steps[1..] + more;
    }
  }

  lemma OneStep(s: State, step: Step)
    requires Enabled(s, step) && Prompt(s, step)
    ensures Run(s, [step]) && After(s, [step]) == Next(s, step)
  {
    hide Next, Enabled, Prompt;
    assert Run(Next(s, step), []) && After(Next(s, step), []) == Next(s, step);
  }

  // Sampling and measuring one engine.
  lemma Visit(s: State, e: Engine)
    requires Settled(s) && s.walk.Some? && s.walk.value.sampled.None? && e in s.walk.value.todo && e in s.live
    ensures e in Footprint(s) && Footprint(s)[e] == s.base[e] + s.landed[e] && e in s.received
    ensures var w := s.walk.value; var steps := [Sample(e), Measure(e)];
      && Run(s, steps)
      && After(s, steps) == s.(walk := Some(Walk(w.todo - {e}, None, w.dl[e := s.received[e]],
                                                 w.sizes[e := Footprint(s)[e]])))
  {
    hide Run, After;
    var t := Next(s, Sample(e));
    OneStep(s, Sample(e));
    OneStep(t, Measure(e));
    RunJoins(s, [Sample(e)], [Measure(e)]);
    assert [Sample(e)] + [Measure(e)] == [Sample(e), Measure(e)];
  }

  // A walk to which the readings of the engines in order have been added.
  function Seen(w: Walk, counters: map<Engine, nat>, sizes: map<Engine, nat>, order: seq<Engine>): Walk {
    Walk({}, None, w.dl + Part(counters, order), w.sizes + Part(sizes, order))
  }

  lemma SeenTail(w: Walk, counters: map<Engine, nat>, sizes: map<Engine, nat>, order: seq<Engine>)
    requires order != [] && Distinct(order) && order[0] in counters && order[0] in sizes
    ensures var e := order[0];
      var t := Walk(w.todo - {e}, None, w.dl[e := counters[e]], w.sizes[e := sizes[e]]);
      Seen(t, counters, sizes, order[1..]) == Seen(w, counters, sizes, order)
  {
    PartOfTail(w.dl, counters, order);
    PartOfTail(w.sizes, sizes, order);
  }

  lemma SeenNothing(w: Walk, counters: map<Engine, nat>, sizes: map<Engine, nat>)
    requires w.todo == {} && w.sampled.None?
    ensures Seen(w, counters, sizes, []) == w
  {
    assert Part(counters, []) == map[] && Part(sizes, []) == map[];
    assert w.dl + map[] == w.dl && w.sizes + map[] == w.sizes;
  }

  lemma {:induction false} VisitsRead(s: State, order: seq<Engine>)
    requires Settled(s) && s.walk.Some? && s.walk.value.sampled.None? && Distinct(order)
    requires (forall e :: e in order <==> e in s.walk.value.todo) && forall e :: e in order ==> e in s.live
    ensures Run(s, Visits(order))
    ensures After(s, Visits(order)) == s.(walk := Some(Seen(s.walk.value, s.received, Footprint(s), order)))
    decreases |order|
  {
    hide Run, After, Footprint, Seen, Part, Distinct;
    var w := s.walk.value;
    if order == [] {
      Nowhere(s);
      assert w.todo == {};
      SeenNothing(w, s.received, Footprint(s));
    } else {
      var e, rest := order[0], order[1..];
      Visit(s, e);
      var t := After(s, [Sample(e), Measure(e)]);
      StaysSettled(s, t);
      Tail(order);
      VisitsRead(t, rest);
      RunJoins(s, [Sample(e), Measure(e)], Visits(rest));
      SeenTail(w, s.received, Footprint(s), order);
    }
  }

  lemma Nowhere(s: State)
    ensures Run(s, []) && After(s, []) == s
  {
  }

  lemma LiveKnown(s: State)
    requires Counted(s)
    ensures forall e :: e in s.live ==> Known(s, e)
  {
  }

  lemma StaysSettled(s: State, t: State)
    requires Settled(s) && t == s.(walk := t.walk)
    ensures Settled(t) && Footprint(t) == Footprint(s)
  {
  }

  lemma Tail(order: seq<Engine>)
    requires order != [] && Distinct(order)
    ensures Distinct(order[1..]) && order[0] !in order[1..]
    ensures forall e :: e in order <==> e == order[0] || e in order[1..]
  {
  }

  lemma PartOfTail(found: map<Engine, nat>, m: map<Engine, nat>, order: seq<Engine>)
    requires order != [] && Distinct(order) && order[0] in m
    ensures found[order[0] := m[order[0]]] + Part(m, order[1..]) == found + Part(m, order)
  {
    Tail(order);
  }

  // A whole walk of a settled cache.
  lemma RoundReads(s: State, order: seq<Engine>, budget: int)
    requires Settled(s) && s.walk.None? && s.live != {} && Distinct(order) && forall e :: e in order <==> e in s.live
    ensures Run(s, Round(order, budget))
    ensures var dl := Part(s.received, order); var total := Sum(Footprint(s), s.live);
      After(s, Round(order, budget)) == s.(scan := Observed(s.scan, total <= budget, total, dl, s.clock))
  {
    hide Run, After, Observed, Counted, SampledBefore, Sum, Footprint, Part, Distinct;
    OneStep(s, WalkBegin);
    var s1 := Next(s, WalkBegin);
    StaysSettled(s, s1);
    VisitsRead(s1, order);
    var s2 := After(s1, Visits(order));
    AllSeen(s, order);
    OneStep(s2, WalkEnd(budget));
    RunJoins(s, [WalkBegin], Visits(order));
    RunJoins(s, [WalkBegin] + Visits(order), [WalkEnd(budget)]);
  }

  lemma AllSeen(s: State, order: seq<Engine>)
    requires Counted(s) && forall e :: e in order <==> e in s.live
    ensures map[] + Part(s.received, order) == Part(s.received, order)
    ensures map[] + Part(Footprint(s), order) == Footprint(s)
    ensures Part(s.received, order).Keys == s.live
  {
  }

  // Two walks of a settled cache within the budget, and the ticks after them are
  // quiet as long as the memo has not aged: exactly then walks are skipped.
  lemma StillCacheGoesQuiet(s: State, order: seq<Engine>, budget: int, between: nat, later: nat)
    requires Settled(s) && s.walk.None? && s.live != {} && Distinct(order) && forall e :: e in order <==> e in s.live
    requires Sum(Footprint(s), s.live) <= budget
    ensures var steps := Round(order, budget) + [Pass(between)] + Round(order, budget) + [Pass(later)];
      && Run(s, steps)
      && var t := After(s, steps);
         t.live <= t.received.Keys && t.live == s.live && (Quiet(t, budget) <==> later < MAX_AGE)
  {
    hide Run, After, Observed, Sum, Footprint, Distinct, Stable;
    var dl := Part(s.received, order);
    var total := Sum(Footprint(s), s.live);
    RoundReads(s, order, budget);
    var s1 := After(s, Round(order, budget));
    WhenMemoised(s.scan, true, total, dl, s.clock);
    OneStep(s1, Pass(between));
    RunJoins(s, Round(order, budget), [Pass(between)]);
    var s2 := Next(s1, Pass(between));
    SameFootprint(s, s2);
    RoundReads(s2, order, budget);
    var s3 := After(s2, Round(order, budget));
    WhenMemoised(s2.scan, true, total, dl, s2.clock);
    RunJoins(s, Round(order, budget) + [Pass(between)], Round(order, budget));
    OneStep(s3, Pass(later));
    RunJoins(s, Round(order, budget) + [Pass(between)] + Round(order, budget), [Pass(later)]);
    LiveKnown(s);
    assert dl.Keys == s.live && |dl| == |dl.Keys|;
  }

  // Time passes, and the last walk is remembered: the cache is still settled.
  lemma SameFootprint(s: State, t: State)
    requires Settled(s) && t == s.(scan := t.scan, clock := t.clock)
    requires t.scan.prev.Some?
    requires forall e :: e in t.scan.prev.value ==> e in s.received && t.scan.prev.value[e] == s.received[e]
    ensures Settled(t) && Footprint(t) == Footprint(s)
  {
  }

  // ----------------------------------------------------- the code, in place

  class DiskScan {
    var memo: Option<Memo>
    var prev: Option<map<Engine, nat>>

    constructor ()
      ensures View() == Scan(None, None)
    {
      memo, prev := None, None;
    }

    function View(): Scan
      reads this
    {
      Scan(memo, prev)
    }

    // observe.
    method Observe(withinBudget: bool, total: nat, dl: map<Engine, nat>, now: int)
      modifies this
      ensures View() == Observed(old(View()), withinBudget, total, dl, now)
    {
      var stable := prev.Some? && |prev.value| == |dl|;
      if stable {
        var todo := dl.Keys;
        while todo != {}
          invariant todo <= dl.Keys
          invariant stable <==> forall e :: e in dl && e !in todo ==> e in prev.value && prev.value[e] == dl[e]
        {
          var e :| e in todo;
          if e !in prev.value || prev.value[e] != dl[e] {
            stable := false;
            break;
          }
          todo := todo - {e};
        }
      }
      prev := Some(dl);
      memo := if withinBudget && stable then Some(Memo(now, total, dl)) else None;
    }

    // cacheQuiet, on the engines loaded and their counters.
    method CacheQuiet(live: set<Engine>, received: map<Engine, nat>, budget: int, now: int) returns (quiet: bool)
      requires live <= received.Keys
      ensures quiet <==> Quiet(State(live, map[], received, map[], View(), None, now), budget)
    {
      if memo.None? || memo.value.total > budget || now - memo.value.at >= MAX_AGE {
        return false;
      }
      if |live| != |memo.value.dl| {
        return false;
      }
      var todo := live;
      while todo != {}
        invariant todo <= live
        invariant forall e :: e in live && e !in todo ==> e in memo.value.dl && received[e] == memo.value.dl[e]
      {
        var e :| e in todo;
        todo := todo - {e};
        if e !in memo.value.dl || received[e] != memo.value.dl[e] {
          return false;
        }
      }
      quiet := true;
    }

    // evictTick: whether the tick ends without a walk. No budget and a budget of
    // nothing never skip, as evict then decides without measuring.
    method EvictTick(live: set<Engine>, received: map<Engine, nat>, budget: int, now: int) returns (skips: bool)
      requires live <= received.Keys
      ensures skips <==> budget > 0 && Quiet(State(live, map[], received, map[], View(), None, now), budget)
    {
      skips := false;
      if budget > 0 {
        skips := CacheQuiet(live, received, budget, now);
      }
    }
  }
}
