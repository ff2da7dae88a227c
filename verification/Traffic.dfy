/** Any number of requests through one chain at once.  Each request's events come in its own
    order; the gauge, the counter and the log are shared, and a schedule says whose event is
    next.  Every interleaving is some schedule. */
module Traffic {
  import opened Handlers
  import opened Accounting
  import opened Tracing
  import opened StandardStack

  datatype Job = Job(req: Request, actions: seq<Action>)

  /** `done[j]` is how many of its events request j has been through. */
  datatype Shared = Shared(done: seq<nat>, gauge: int, counted: seq<Event>, logged: seq<Event>)

  function TraceOf(mws: seq<Middleware>, job: Job): seq<Event> {
    Run(mws, job.actions, job.req, "", 0, Fresh()).trace
  }

  function Idle(jobs: seq<Job>): Shared { Shared(seq(|jobs|, _ => 0), 0, [], []) }

  predicate CanStep(mws: seq<Middleware>, jobs: seq<Job>, s: Shared, j: nat) {
    |s.done| == |jobs| && j < |jobs| && s.done[j] < |TraceOf(mws, jobs[j])|
  }

  function Step(mws: seq<Middleware>, jobs: seq<Job>, s: Shared, j: nat): Shared
    requires CanStep(mws, jobs, s, j)
  {
    var e := TraceOf(mws, jobs[j])[s.done[j]];
    Shared(s.done[j := s.done[j] + 1],
      s.gauge + GaugeStep(e),
      s.counted + if e.Counted? then [e] else [],
      s.logged + if e.Logged? then [e] else [])
  }

  predicate CanPlay(mws: seq<Middleware>, jobs: seq<Job>, s: Shared, schedule: seq<nat>)
    decreases schedule
  {
    schedule == [] ||
    (CanStep(mws, jobs, s, schedule[0]) && CanPlay(mws, jobs, Step(mws, jobs, s, schedule[0]), schedule[1..]))
  }

  function Play(mws: seq<Middleware>, jobs: seq<Job>, s: Shared, schedule: seq<nat>): Shared
    requires CanPlay(mws, jobs, s, schedule)
    decreases schedule
  {
    if schedule == [] then s else Play(mws, jobs, Step(mws, jobs, s, schedule[0]), schedule[1..])
  }

  // ---------- Sums over requests ----------

  function Sum(xs: seq<int>): int {
    if xs == [] then 0 else xs[0] + Sum(xs[1..])
  }

  lemma {:induction false} SumUpdate(xs: seq<int>, i: nat, v: int)
    requires i < |xs|
    ensures Sum(xs[i := v]) == Sum(xs) - xs[i] + v
  {
    if i == 0 {
      assert xs[i := v][1..] == xs[1..];
    } else {
      assert xs[i := v][1..] == xs[1..][i - 1 := v];
      SumUpdate(xs[1..], i - 1, v);
    }
  }

  lemma {:induction false} SumMonotone(xs: seq<int>, ys: seq<int>)
    requires |xs| == |ys| && forall i | 0 <= i < |xs| :: xs[i] <= ys[i]
    ensures Sum(xs) <= Sum(ys)
  {
    if xs != [] { SumMonotone(xs[1..], ys[1..]); }
  }

  lemma {:induction false} SumOfSums(xs: seq<int>, ys: seq<int>, zs: seq<int>)
    requires |xs| == |ys| == |zs| && forall i | 0 <= i < |xs| :: xs[i] == ys[i] + zs[i]
    ensures Sum(xs) == Sum(ys) + Sum(zs)
  {
    if xs != [] { SumOfSums(xs[1..], ys[1..], zs[1..]); }
  }

  lemma {:induction false} SumOfZeros(xs: seq<int>)
    requires forall i | 0 <= i < |xs| :: xs[i] == 0
    ensures Sum(xs) == 0
  {
    if xs != [] { SumOfZeros(xs[1..]); }
  }

  lemma {:induction false} SumZeroIff(xs: seq<int>)
    requires forall i | 0 <= i < |xs| :: xs[i] >= 0
    ensures Sum(xs) >= 0
    ensures Sum(xs) == 0 <==> forall i | 0 <= i < |xs| :: xs[i] == 0
  {
    if xs != [] {
      SumZeroIff(xs[1..]);
      assert forall i | 0 < i < |xs| :: xs[i] == xs[1..][i - 1];
    }
  }

  /** The events request j has been through. */
  function Past(mws: seq<Middleware>, jobs: seq<Job>, s: Shared, j: nat): seq<Event>
    requires j < |jobs| && |s.done| == |jobs| && s.done[j] <= |TraceOf(mws, jobs[j])|
  {
    TraceOf(mws, jobs[j])[..s.done[j]]
  }

  predicate InBounds(mws: seq<Middleware>, jobs: seq<Job>, s: Shared) {
    |s.done| == |jobs| && forall j | 0 <= j < |jobs| :: s.done[j] <= |TraceOf(mws, jobs[j])|
  }

  /** A measure of each request's past, per request. */
  function Each(mws: seq<Middleware>, jobs: seq<Job>, s: Shared, f: seq<Event> -> int): seq<int>
    requires InBounds(mws, jobs, s)
  {
    seq(|jobs|, j requires 0 <= j < |jobs| => f(Past(mws, jobs, s, j)))
  }

  lemma EachAlike(mws: seq<Middleware>, jobs: seq<Job>, s: Shared, f: seq<Event> -> int, g: seq<Event> -> int)
    requires InBounds(mws, jobs, s)
    requires forall j | 0 <= j < |jobs| :: f(Past(mws, jobs, s, j)) == g(Past(mws, jobs, s, j))
    ensures Each(mws, jobs, s, f) == Each(mws, jobs, s, g)
  {
  }

  lemma EachZero(mws: seq<Middleware>, jobs: seq<Job>, s: Shared, f: seq<Event> -> int)
    requires InBounds(mws, jobs, s)
    requires forall j | 0 <= j < |jobs| :: f(Past(mws, jobs, s, j)) == 0
    ensures Sum(Each(mws, jobs, s, f)) == 0
  {
    SumOfZeros(Each(mws, jobs, s, f));
  }

  lemma EachNonNegative(mws: seq<Middleware>, jobs: seq<Job>, s: Shared, f: seq<Event> -> int)
    requires InBounds(mws, jobs, s)
    requires forall j | 0 <= j < |jobs| :: f(Past(mws, jobs, s, j)) >= 0
    ensures Sum(Each(mws, jobs, s, f)) >= 0
    ensures Sum(Each(mws, jobs, s, f)) == 0 <==> forall j | 0 <= j < |jobs| :: f(Past(mws, jobs, s, j)) == 0
  {
    SumZeroIff(Each(mws, jobs, s, f));
    assert forall j | 0 <= j < |jobs| :: Each(mws, jobs, s, f)[j] == f(Past(mws, jobs, s, j));
  }

  lemma EachGrows(mws: seq<Middleware>, jobs: seq<Job>, s: Shared, s': Shared, f: seq<Event> -> int)
    requires InBounds(mws, jobs, s) && InBounds(mws, jobs, s')
    requires forall j | 0 <= j < |jobs| :: f(Past(mws, jobs, s, j)) <= f(Past(mws, jobs, s', j))
    ensures Sum(Each(mws, jobs, s, f)) <= Sum(Each(mws, jobs, s', f))
  {
    SumMonotone(Each(mws, jobs, s, f), Each(mws, jobs, s', f));
  }

  /** How often an event occurs. */
  function Times(t: seq<Event>, e: Event): nat {
    if t == [] then 0 else (if t[0] == e then 1 else 0) + Times(t[1..], e)
  }

  lemma {:induction false} TimesConcat(a: seq<Event>, b: seq<Event>, e: Event)
    ensures Times(a + b, e) == Times(a, e) + Times(b, e)
  {
    if a == [] {
      assert a + b == b;
    } else {
      assert (a + b)[1..] == a[1..] + b;
      TimesConcat(a[1..], b, e);
    }
  }

  function TimesOf(e: Event): seq<Event> -> int { t => Times(t, e) }

  /** The metrics layers on the call stack of a request that has been through t. */
  function InFlight(t: seq<Event>): int { NumMetrics(Stack([], t)) }

  /** Those that panics have left, and the entries made. */
  function Lost(t: seq<Event>): int { PanicExits(t) }

  function CountedBy(t: seq<Event>): int { NumCounted(t) }

  function LoggedBy(t: seq<Event>): int { NumLogged(t) }

  // ---------- The invariant ----------

  ghost predicate Inv(mws: seq<Middleware>, jobs: seq<Job>, s: Shared) {
    && InBounds(mws, jobs, s)
    && s.gauge == Sum(Each(mws, jobs, s, Gauge))
    && |s.counted| == Sum(Each(mws, jobs, s, CountedBy))
    && |s.logged| == Sum(Each(mws, jobs, s, LoggedBy))
    && (forall e: Event | e.Counted? :: Times(s.counted, e) == Sum(Each(mws, jobs, s, TimesOf(e))))
    && (forall e: Event | e.Logged? :: Times(s.logged, e) == Sum(Each(mws, jobs, s, TimesOf(e))))
  }

  lemma IdleInv(mws: seq<Middleware>, jobs: seq<Job>)
    ensures Inv(mws, jobs, Idle(jobs))
  {
    var s := Idle(jobs);
    assert forall j | 0 <= j < |jobs| :: Past(mws, jobs, s, j) == [];
    SumOfZeros(Each(mws, jobs, s, Gauge));
    SumOfZeros(Each(mws, jobs, s, CountedBy));
    SumOfZeros(Each(mws, jobs, s, LoggedBy));
    forall e: Event ensures Sum(Each(mws, jobs, s, TimesOf(e))) == 0 {
      SumOfZeros(Each(mws, jobs, s, TimesOf(e)));
    }
  }

  lemma OneMore(t: seq<Event>, n: nat)
    requires n < |t|
    ensures Gauge(t[..n + 1]) == Gauge(t[..n]) + GaugeStep(t[n])
    ensures NumCounted(t[..n + 1]) == NumCounted(t[..n]) + if t[n].Counted? then 1 else 0
    ensures NumLogged(t[..n + 1]) == NumLogged(t[..n]) + if t[n].Logged? then 1 else 0
  {
    assert t[..n + 1] == t[..n] + [t[n]];
    assert [t[n]][1..] == [];
    GaugeConcat(t[..n], [t[n]]);
    NumConcat(t[..n], [t[n]]);
  }

  lemma EachAfterStep(mws: seq<Middleware>, jobs: seq<Job>, s: Shared, j: nat, f: seq<Event> -> int)
    requires InBounds(mws, jobs, s) && CanStep(mws, jobs, s, j)
    ensures InBounds(mws, jobs, Step(mws, jobs, s, j))
    ensures var t := TraceOf(mws, jobs[j]);
      Sum(Each(mws, jobs, Step(mws, jobs, s, j), f))
        == Sum(Each(mws, jobs, s, f)) - f(t[..s.done[j]]) + f(t[..s.done[j] + 1])
  {
    var t, s' := TraceOf(mws, jobs[j]), Step(mws, jobs, s, j);
    var xs := Each(mws, jobs, s, f)[j := f(t[..s.done[j] + 1])];
    forall k | 0 <= k < |jobs| ensures Each(mws, jobs, s', f)[k] == xs[k] {
      assert k != j ==> Past(mws, jobs, s', k) == Past(mws, jobs, s, k);
      assert k == j ==> Past(mws, jobs, s', k) == t[..s.done[j] + 1];
    }
    assert Each(mws, jobs, s', f) == xs;
    assert Each(mws, jobs, s, f)[j] == f(Past(mws, jobs, s, j)) == f(t[..s.done[j]]);
    SumUpdate(Each(mws, jobs, s, f), j, f(t[..s.done[j] + 1]));
  }

  lemma StepKeepsInv(mws: seq<Middleware>, jobs: seq<Job>, s: Shared, j: nat)
    requires Inv(mws, jobs, s) && CanStep(mws, jobs, s, j)
    ensures Inv(mws, jobs, Step(mws, jobs, s, j))
  {
    var t, s' := TraceOf(mws, jobs[j]), Step(mws, jobs, s, j);
    OneMore(t, s.done[j]);
    EachAfterStep(mws, jobs, s, j, Gauge);
    EachAfterStep(mws, jobs, s, j, CountedBy);
    EachAfterStep(mws, jobs, s, j, LoggedBy);
    forall e: Event
      ensures e.Counted? ==> Times(s'.counted, e) == Sum(Each(mws, jobs, s', TimesOf(e)))
      ensures e.Logged? ==> Times(s'.logged, e) == Sum(Each(mws, jobs, s', TimesOf(e)))
    {
      StepTimes(mws, jobs, s, j, e);
    }
  }

  lemma StepTimes(mws: seq<Middleware>, jobs: seq<Job>, s: Shared, j: nat, e: Event)
    requires InBounds(mws, jobs, s) && CanStep(mws, jobs, s, j)
    ensures var s' := Step(mws, jobs, s, j);
      var grown := Sum(Each(mws, jobs, s', TimesOf(e))) - Sum(Each(mws, jobs, s, TimesOf(e)));
      && (e.Counted? ==> Times(s'.counted, e) == Times(s.counted, e) + grown)
      && (e.Logged? ==> Times(s'.logged, e) == Times(s.logged, e) + grown)
  {
    var t, n := TraceOf(mws, jobs[j]), s.done[j];
    var x, f := t[n], TimesOf(e);
    EachAfterStep(mws, jobs, s, j, f);
    TimesOneMore(t, n, e);
    assert f(t[..n + 1]) - f(t[..n]) == if x == e then 1 else 0;
    TimesConcat(s.counted, [x], e);
    TimesConcat(s.logged, [x], e);
    assert s.counted + [] == s.counted && s.logged + [] == s.logged;
  }

  lemma TimesOneMore(t: seq<Event>, n: nat, e: Event)
    requires n < |t|
    ensures Times(t[..n + 1], e) == Times(t[..n], e) + Times([t[n]], e)
    ensures Times([t[n]], e) == if t[n] == e then 1 else 0
  {
    assert t[..n + 1] == t[..n] + [t[n]];
    TimesConcat(t[..n], [t[n]], e);
    assert [t[n]][1..] == [];
  }

  lemma {:induction false} PlayKeepsInv(mws: seq<Middleware>, jobs: seq<Job>, s: Shared, schedule: seq<nat>)
    requires Inv(mws, jobs, s) && CanPlay(mws, jobs, s, schedule)
    ensures Inv(mws, jobs, Play(mws, jobs, s, schedule))
    decreases schedule
  {
    if schedule != [] {
      StepKeepsInv(mws, jobs, s, schedule[0]);
      PlayKeepsInv(mws, jobs, Step(mws, jobs, s, schedule[0]), schedule[1..]);
    }
  }

  /** All requests have been through all their events. */
  predicate Quiet(mws: seq<Middleware>, jobs: seq<Job>, s: Shared) {
    |s.done| == |jobs| && forall j | 0 <= j < |jobs| :: s.done[j] == |TraceOf(mws, jobs[j])|
  }

  /** From everywhere the requests can all be brought to their end, those from j on in turn. */
  lemma {:induction false} CanFinish(mws: seq<Middleware>, jobs: seq<Job>, s: Shared, j: nat)
    returns (schedule: seq<nat>)
    requires InBounds(mws, jobs, s) && j <= |jobs|
    requires forall i | 0 <= i < j :: s.done[i] == |TraceOf(mws, jobs[i])|
    ensures CanPlay(mws, jobs, s, schedule) && Quiet(mws, jobs, Play(mws, jobs, s, schedule))
    decreases |jobs| - j, if j < |jobs| then |TraceOf(mws, jobs[j])| - s.done[j] else 0
  {
    if j == |jobs| {
      schedule := [];
    } else if s.done[j] == |TraceOf(mws, jobs[j])| {
      schedule := CanFinish(mws, jobs, s, j + 1);
    } else {
      var rest := CanFinish(mws, jobs, Step(mws, jobs, s, j), j);
      schedule := [j] + rest;
      assert schedule[0] == j && schedule[1..] == rest;
    }
  }

  // ---------- Conservation ----------

  /** In every interleaving the shared counter and log hold exactly what the requests have
      put there so far: each increment and each entry as often as it occurs in their pasts. */
  lemma SharedIsUnionOfPasts(mws: seq<Middleware>, jobs: seq<Job>, schedule: seq<nat>)
    requires CanPlay(mws, jobs, Idle(jobs), schedule)
    ensures var s := Play(mws, jobs, Idle(jobs), schedule);
      && InBounds(mws, jobs, s)
      && (forall e: Event | e.Counted? :: Times(s.counted, e) == Sum(Each(mws, jobs, s, TimesOf(e))))
      && (forall e: Event | e.Logged? :: Times(s.logged, e) == Sum(Each(mws, jobs, s, TimesOf(e))))
      && |s.counted| == Sum(Each(mws, jobs, s, CountedBy))
      && |s.logged| == Sum(Each(mws, jobs, s, LoggedBy))
  {
    IdleInv(mws, jobs);
    PlayKeepsInv(mws, jobs, Idle(jobs), schedule);
  }

  /** At every moment of every interleaving through every chain: the gauge is the metrics
      layers on the call stacks of live requests plus those that panics have left. */
  lemma GaugeConservation(mws: seq<Middleware>, jobs: seq<Job>, schedule: seq<nat>)
    requires CanPlay(mws, jobs, Idle(jobs), schedule)
    ensures var s := Play(mws, jobs, Idle(jobs), schedule);
      && InBounds(mws, jobs, s)
      && s.gauge == Sum(Each(mws, jobs, s, InFlight)) + Sum(Each(mws, jobs, s, Lost))
  {
    var s := Play(mws, jobs, Idle(jobs), schedule);
    IdleInv(mws, jobs);
    PlayKeepsInv(mws, jobs, Idle(jobs), schedule);
    GaugeSplits(mws, jobs, s);
  }

  lemma GaugeSplits(mws: seq<Middleware>, jobs: seq<Job>, s: Shared)
    requires InBounds(mws, jobs, s)
    ensures Sum(Each(mws, jobs, s, Gauge)) == Sum(Each(mws, jobs, s, InFlight)) + Sum(Each(mws, jobs, s, Lost))
  {
    forall j | 0 <= j < |jobs|
      ensures Gauge(Past(mws, jobs, s, j)) == InFlight(Past(mws, jobs, s, j)) + PanicExits(Past(mws, jobs, s, j))
    {
      GaugeIsConserved(mws, jobs[j].actions, jobs[j].req, "", 0, Fresh(), s.done[j]);
    }
    SumOfSums(Each(mws, jobs, s, Gauge), Each(mws, jobs, s, InFlight), Each(mws, jobs, s, Lost));
  }

  lemma {:induction false} PanicExitsGrow(t: seq<Event>, m: nat, n: nat)
    requires m <= n <= |t|
    ensures PanicExits(t[..m]) <= PanicExits(t[..n])
  {
    assert t[..n] == t[..m] + t[m..n];
    GaugeConcat(t[..m], t[m..n]);
  }

  /** Where no panic leaves a metrics layer, the gauge is exactly the metrics layers that live
      requests are in, at every moment; panics recovered further inside do not matter. */
  lemma GaugeWithoutLosses(mws: seq<Middleware>, jobs: seq<Job>, schedule: seq<nat>)
    requires CanPlay(mws, jobs, Idle(jobs), schedule)
    requires forall j | 0 <= j < |jobs| :: LostLayers(mws, jobs[j].req, jobs[j].actions) == 0
    ensures var s := Play(mws, jobs, Idle(jobs), schedule);
      InBounds(mws, jobs, s) && s.gauge == Sum(Each(mws, jobs, s, InFlight))
  {
    var s := Play(mws, jobs, Idle(jobs), schedule);
    GaugeConservation(mws, jobs, schedule);
    forall j | 0 <= j < |jobs| ensures PanicExits(Past(mws, jobs, s, j)) == 0 {
      var t := TraceOf(mws, jobs[j]);
      PanicExitsOfRun(mws, jobs[j].actions, jobs[j].req, "", 0, Fresh());
      PanicExitsGrow(t, s.done[j], |t|);
      assert t[..|t|] == t;
    }
    EachZero(mws, jobs, s, Lost);
  }

  function Inside01(t: seq<Event>): int { if IsInside(t) then 1 else 0 }

  function ThrownOut01(t: seq<Event>): int { if WasThrownOut(t) then 1 else 0 }

  /** In a chain with at most one metrics layer, at every moment of every interleaving, the
      gauge is a number of requests: those now inside the layer and those a panic has thrown
      out of it.  So it is the number in flight exactly as long as no panic has got that far. */
  lemma GaugeCountsRequests(mws: seq<Middleware>, jobs: seq<Job>, schedule: seq<nat>)
    requires MetricsLayers(mws) <= 1 && CanPlay(mws, jobs, Idle(jobs), schedule)
    ensures var s := Play(mws, jobs, Idle(jobs), schedule);
      && InBounds(mws, jobs, s)
      && s.gauge == Sum(Each(mws, jobs, s, Inside01)) + Sum(Each(mws, jobs, s, ThrownOut01))
      && (s.gauge == Sum(Each(mws, jobs, s, Inside01)) <==>
            forall j | 0 <= j < |jobs| :: !WasThrownOut(Past(mws, jobs, s, j)))
  {
    var s := Play(mws, jobs, Idle(jobs), schedule);
    GaugeConservation(mws, jobs, schedule);
    forall j | 0 <= j < |jobs|
      ensures InFlight(Past(mws, jobs, s, j)) == Inside01(Past(mws, jobs, s, j))
      ensures PanicExits(Past(mws, jobs, s, j)) == ThrownOut01(Past(mws, jobs, s, j))
    {
      OneMetricsLayer(mws, jobs[j].actions, jobs[j].req, "", 0, Fresh(), s.done[j]);
    }
    EachAlike(mws, jobs, s, InFlight, Inside01);
    EachAlike(mws, jobs, s, Lost, ThrownOut01);
    EachNonNegative(mws, jobs, s, ThrownOut01);
  }

  /** So the standard stack's gauge is the number of requests in flight as long as every
      handler returns. */
  lemma StandardGauge(jobs: seq<Job>, schedule: seq<nat>)
    requires CanPlay(STANDARD, jobs, Idle(jobs), schedule)
    requires forall j | 0 <= j < |jobs| :: Preflight(jobs[j].req) || !Panics(jobs[j].actions)
    ensures var s := Play(STANDARD, jobs, Idle(jobs), schedule);
      InBounds(STANDARD, jobs, s) && s.gauge == Sum(Each(STANDARD, jobs, s, Inside01))
  {
    var s := Play(STANDARD, jobs, Idle(jobs), schedule);
    forall j | 0 <= j < |jobs| ensures LostLayers(STANDARD, jobs[j].req, jobs[j].actions) == 0 {
      StandardCalm(jobs[j].req, jobs[j].actions);
    }
    StandardSlices();
    assert MetricsLayers(STANDARD) == 1;
    GaugeCountsRequests(STANDARD, jobs, schedule);
    GaugeWithoutLosses(STANDARD, jobs, schedule);
    forall j | 0 <= j < |jobs| ensures InFlight(Past(STANDARD, jobs, s, j)) == Inside01(Past(STANDARD, jobs, s, j)) {
      OneMetricsLayer(STANDARD, jobs[j].actions, jobs[j].req, "", 0, Fresh(), s.done[j]);
    }
    EachAlike(STANDARD, jobs, s, InFlight, Inside01);
  }

  lemma {:induction false} PlayOnlyAdvances(mws: seq<Middleware>, jobs: seq<Job>, s: Shared, schedule: seq<nat>)
    requires InBounds(mws, jobs, s) && CanPlay(mws, jobs, s, schedule)
    ensures InBounds(mws, jobs, Play(mws, jobs, s, schedule))
    ensures forall j | 0 <= j < |jobs| :: s.done[j] <= Play(mws, jobs, s, schedule).done[j]
    decreases schedule
  {
    if schedule != [] {
      PlayOnlyAdvances(mws, jobs, Step(mws, jobs, s, schedule[0]), schedule[1..]);
    }
  }

  /** What a panic has put on the gauge stays there: nothing that happens later brings the
      gauge below it. */
  lemma LostStaysLost(mws: seq<Middleware>, jobs: seq<Job>, s: Shared, schedule: seq<nat>)
    requires Inv(mws, jobs, s) && CanPlay(mws, jobs, s, schedule)
    ensures Sum(Each(mws, jobs, s, Lost)) <= Play(mws, jobs, s, schedule).gauge
  {
    var s' := Play(mws, jobs, s, schedule);
    PlayKeepsInv(mws, jobs, s, schedule);
    PlayOnlyAdvances(mws, jobs, s, schedule);
    GaugeSplits(mws, jobs, s');
    forall j | 0 <= j < |jobs| ensures PanicExits(Past(mws, jobs, s, j)) <= PanicExits(Past(mws, jobs, s', j)) {
      PanicExitsGrow(TraceOf(mws, jobs[j]), s.done[j], s'.done[j]);
    }
    EachGrows(mws, jobs, s, s', Lost);
    EachNonNegative(mws, jobs, s', InFlight);
  }

  // ---------- The standard stack, when all requests are done ----------

  function NumJobs(jobs: seq<Job>, p: Job -> bool): nat {
    if jobs == [] then 0 else (if p(jobs[0]) then 1 else 0) + NumJobs(jobs[1..], p)
  }

  predicate RanAndReturned(j: Job) { !Preflight(j.req) && !Panics(j.actions) }

  predicate RanAndPanicked(j: Job) { !Preflight(j.req) && Panics(j.actions) }

  predicate Anything(j: Job) { true }

  lemma {:induction false} SumIsNumJobs(jobs: seq<Job>, p: Job -> bool, xs: seq<int>)
    requires |xs| == |jobs| && forall j | 0 <= j < |jobs| :: xs[j] == if p(jobs[j]) then 1 else 0
    ensures Sum(xs) == NumJobs(jobs, p)
  {
    if jobs != [] { SumIsNumJobs(jobs[1..], p, xs[1..]); }
  }

  lemma EachIsNumJobs(jobs: seq<Job>, s: Shared, f: seq<Event> -> int, p: Job -> bool)
    requires InBounds(STANDARD, jobs, s)
    requires forall j | 0 <= j < |jobs| :: f(Past(STANDARD, jobs, s, j)) == if p(jobs[j]) then 1 else 0
    ensures Sum(Each(STANDARD, jobs, s, f)) == NumJobs(jobs, p)
  {
    SumIsNumJobs(jobs, p, Each(STANDARD, jobs, s, f));
  }

  lemma {:induction false} AllJobs(jobs: seq<Job>)
    ensures NumJobs(jobs, Anything) == |jobs|
  {
    if jobs != [] { AllJobs(jobs[1..]); }
  }

  lemma PastOfQuiet(jobs: seq<Job>, s: Shared, j: nat)
    requires Quiet(STANDARD, jobs, s) && j < |jobs|
    ensures var t := Past(STANDARD, jobs, s, j);
      && InFlight(t) == 0
      && PanicExits(t) == (if RanAndPanicked(jobs[j]) then 1 else 0)
      && NumCounted(t) == (if RanAndReturned(jobs[j]) then 1 else 0)
      && NumLogged(t) == 1
  {
    var t, job := TraceOf(STANDARD, jobs[j]), jobs[j];
    assert Past(STANDARD, jobs, s, j) == t;
    RunIsNested(STANDARD, job.actions, job.req, "", 0, Fresh(), []);
    PanicExitsOfRun(STANDARD, job.actions, job.req, "", 0, Fresh());
    StandardCalm(job.req, job.actions);
    StandardRequest(job.req, job.actions);
  }

  /** The requests counted under one label. */
  function Labelled(verb: string, path: string, status: nat): Job -> bool {
    (j: Job) => !Preflight(j.req) && !Panics(j.actions)
      && j.req.verb == verb && j.req.path == path && Recorded(j.actions) == status
  }

  /** If all counter increments in a trace are alike, it holds each as often as it counts. */
  lemma {:induction false} TimesOfUniform(t: seq<Event>, only: Event, e: Event)
    requires e.Counted? && only.Counted?
    requires forall x | x in t && x.Counted? :: x == only
    ensures Times(t, e) == if e == only then NumCounted(t) else 0
  {
    if t != [] {
      assert t[0] in t;
      assert forall x | x in t[1..] :: x in t;
      TimesOfUniform(t[1..], only, e);
    }
  }

  lemma CountedLabel(job: Job, verb: string, path: string, status: nat)
    ensures Times(TraceOf(STANDARD, job), Counted(verb, path, status))
      == if Labelled(verb, path, status)(job) then 1 else 0
  {
    var only := Counted(job.req.verb, job.req.path, LoggedStatus(job.req, job.actions));
    StandardRequest(job.req, job.actions);
    var t := TraceOf(STANDARD, job);
    assert t == Request1(job.req, job.actions).trace;
    TimesOfUniform(t, only, Counted(verb, path, status));
  }

  /** When every request through the standard stack is done, whatever the interleaving: the
      gauge still shows one for each handler that panicked; the log has one entry per request;
      and the counter has, label by label and in total, one increment for each handler that
      returned, preflights not included. */
  lemma StandardTotals(jobs: seq<Job>, schedule: seq<nat>)
    requires CanPlay(STANDARD, jobs, Idle(jobs), schedule)
    requires Quiet(STANDARD, jobs, Play(STANDARD, jobs, Idle(jobs), schedule))
    ensures var s := Play(STANDARD, jobs, Idle(jobs), schedule);
      && s.gauge == NumJobs(jobs, RanAndPanicked)
      && |s.counted| == NumJobs(jobs, RanAndReturned)
      && |s.logged| == |jobs|
      && (forall verb, path, status ::
            Times(s.counted, Counted(verb, path, status)) == NumJobs(jobs, Labelled(verb, path, status)))
  {
    var s := Play(STANDARD, jobs, Idle(jobs), schedule);
    SharedIsUnionOfPasts(STANDARD, jobs, schedule);
    GaugeConservation(STANDARD, jobs, schedule);
    forall j | 0 <= j < |jobs|
      ensures var t := Past(STANDARD, jobs, s, j);
        && InFlight(t) == 0 && NumLogged(t) == 1
        && PanicExits(t) == (if RanAndPanicked(jobs[j]) then 1 else 0)
        && NumCounted(t) == (if RanAndReturned(jobs[j]) then 1 else 0)
    {
      PastOfQuiet(jobs, s, j);
    }
    EachZero(STANDARD, jobs, s, InFlight);
    EachIsNumJobs(jobs, s, Lost, RanAndPanicked);
    EachIsNumJobs(jobs, s, CountedBy, RanAndReturned);
    EachIsNumJobs(jobs, s, LoggedBy, Anything);
    AllJobs(jobs);
    forall verb, path, status
      ensures Times(s.counted, Counted(verb, path, status)) == NumJobs(jobs, Labelled(verb, path, status))
    {
      LabelTotal(jobs, s, verb, path, status);
    }
  }

  lemma LabelTotal(jobs: seq<Job>, s: Shared, verb: string, path: string, status: nat)
    requires Quiet(STANDARD, jobs, s)
    ensures InBounds(STANDARD, jobs, s)
    ensures Sum(Each(STANDARD, jobs, s, TimesOf(Counted(verb, path, status))))
      == NumJobs(jobs, Labelled(verb, path, status))
  {
    var xs := Each(STANDARD, jobs, s, TimesOf(Counted(verb, path, status)));
    forall j | 0 <= j < |jobs| ensures xs[j] == if Labelled(verb, path, status)(jobs[j]) then 1 else 0 {
      assert Past(STANDARD, jobs, s, j) == TraceOf(STANDARD, jobs[j]);
      CountedLabel(jobs[j], verb, path, status);
    }
    SumIsNumJobs(jobs, Labelled(verb, path, status), xs);
  }
}
