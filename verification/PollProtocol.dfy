/** The status store as a concurrent protocol.  Any number of polls overlap; each runs one
    goroutine per registered service, which probes without the lock and then writes one map
    slot under it.  A run is a list of steps, so every interleaving is some run; readers
    take `Snapshot` of whatever state they meet. */
module PollProtocol {
  import opened Platform

  /** Where one goroutine of one poll is.  `Written` remembers its place in lock order. */
  datatype Phase =
    | Spawned
    | Probing(since: nat)
    | Probed(status: ServiceStatus)
    | Written(slot: nat)

  /** When something happened: on the clock, and how many writes had the lock by then. */
  datatype Moment = Moment(time: nat, writes: nat)

  datatype PollRun = PollRun(phases: seq<Phase>, start: Moment, end: Option<Moment>)

  /** One critical section: service number `service` of poll number `poll` stored `status`. */
  datatype Write = Write(poll: nat, service: nat, status: ServiceStatus, at: nat)

  /** `history` lists the critical sections in lock order.  It is bookkeeping: no step looks at it. */
  datatype State = State(
    services: seq<ServiceEntry>, statuses: map<string, ServiceStatus>,
    polls: seq<PollRun>, now: nat, history: seq<Write>)

  datatype Step =
    | Tick(elapsed: nat)
    | StartPoll
    | BeginProbe(poll: nat, service: nat)
    | EndProbe(poll: nat, service: nat, latency: nat, outcome: ProbeOutcome)
    | WriteBack(poll: nat, service: nat)
    | Return(poll: nat)

  // ---------- The store before any poll ----------

  function InitialStatuses(services: seq<ServiceEntry>): map<string, ServiceStatus> {
    if services == [] then map[]
    else
      var last := services[|services| - 1];
      InitialStatuses(services[..|services| - 1])[last.name := Unprobed(last)]
  }

  function Init(services: seq<ServiceEntry>, now: nat): State {
    State(services, InitialStatuses(services), [], now, [])
  }

  // ---------- Steps ----------

  predicate AllWritten(p: PollRun) {
    forall i | 0 <= i < |p.phases| :: p.phases[i].Written?
  }

  predicate Live(s: State, p: nat, i: nat) {
    p < |s.polls| && i < |s.services| && i < |s.polls[p].phases| && s.polls[p].end.None?
  }

  predicate Enabled(s: State, step: Step) {
    match step
    case Tick(_) => true
    case StartPoll => true
    case BeginProbe(p, i) => Live(s, p, i) && s.polls[p].phases[i].Spawned?
    case EndProbe(p, i, latency, _) =>
      Live(s, p, i) && s.polls[p].phases[i].Probing? && s.polls[p].phases[i].since + latency <= s.now
    case WriteBack(p, i) => Live(s, p, i) && s.polls[p].phases[i].Probed?
    case Return(p) => p < |s.polls| && s.polls[p].end.None? && AllWritten(s.polls[p])
  }

  function SetPhase(s: State, p: nat, i: nat, phase: Phase): State
    requires Live(s, p, i)
  {
    s.(polls := s.polls[p := s.polls[p].(phases := s.polls[p].phases[i := phase])])
  }

  function NewPoll(s: State): PollRun {
    PollRun(seq(|s.services|, _ => Spawned), Moment(s.now, |s.history|), None)
  }

  function Apply(s: State, step: Step): State
    requires Enabled(s, step)
  {
    match step
    case Tick(d) => s.(now := s.now + d)
    case StartPoll => s.(polls := s.polls + [NewPoll(s)])
    case BeginProbe(p, i) => SetPhase(s, p, i, Probing(s.now))
    case EndProbe(p, i, latency, outcome) =>
      SetPhase(s, p, i, Probed(ProbeResult(s.services[i], s.polls[p].phases[i].since, latency, outcome)))
    case WriteBack(p, i) =>
      var st := s.polls[p].phases[i].status;
      SetPhase(s, p, i, Written(|s.history|)).(
        statuses := s.statuses[s.services[i].name := st],
        history := s.history + [Write(p, i, st, s.now)])
    case Return(p) =>
      s.(polls := s.polls[p := s.polls[p].(end := Some(Moment(s.now, |s.history|)))])
  }

  /** What Statuses returns when it takes the read lock in state s. */
  function Snapshot(s: State): seq<ServiceStatus> {
    Collect(s.services, s.statuses)
  }

  function Collect(services: seq<ServiceEntry>, m: map<string, ServiceStatus>): seq<ServiceStatus> {
    if services == [] then []
    else (if services[0].name in m then [m[services[0].name]] else []) + Collect(services[1..], m)
  }

  // ---------- Runs ----------

  predicate CanRun(s: State, steps: seq<Step>)
    decreases steps
  {
    steps == [] || (Enabled(s, steps[0]) && CanRun(Apply(s, steps[0]), steps[1..]))
  }

  function Run(s: State, steps: seq<Step>): State
    requires CanRun(s, steps)
    decreases steps
  {
    if steps == [] then s else Run(Apply(s, steps[0]), steps[1..])
  }

  // ---------- The invariant ----------

  function Names(services: seq<ServiceEntry>): set<string> {
    set svc | svc in services :: svc.name
  }

  predicate Indexed(services: seq<ServiceEntry>, h: seq<Write>) {
    forall k | 0 <= k < |h| :: h[k].service < |services|
  }

  /** The place in lock order of the last write to a name, or -1. */
  function LastWrite(services: seq<ServiceEntry>, h: seq<Write>, name: string): (k: int)
    requires Indexed(services, h)
    ensures -1 <= k < |h|
    ensures k >= 0 ==> services[h[k].service].name == name
    ensures forall j | k < j < |h| :: services[h[j].service].name != name
  {
    if h == [] then -1
    else if services[h[|h| - 1].service].name == name then |h| - 1
    else LastWrite(services, h[..|h| - 1], name)
  }

  /** A store after the critical sections h, taken in order. */
  function Replay(services: seq<ServiceEntry>, m: map<string, ServiceStatus>, h: seq<Write>): map<string, ServiceStatus>
    requires Indexed(services, h)
  {
    if h == [] then m
    else
      var w := h[|h| - 1];
      Replay(services, m, h[..|h| - 1])[services[w.service].name := w.status]
  }

  lemma {:induction false} ReplayKeepsLastWrite(
    services: seq<ServiceEntry>, m: map<string, ServiceStatus>, h: seq<Write>, name: string)
    requires Indexed(services, h)
    ensures var k := LastWrite(services, h, name); var r := Replay(services, m, h);
      if k >= 0 then name in r && r[name] == h[k].status
      else (name in r <==> name in m) && (name in m ==> r[name] == m[name])
  {
    if h != [] {
      ReplayKeepsLastWrite(services, m, h[..|h| - 1], name);
    }
  }

  ghost predicate PhaseInv(s: State, p: nat, i: nat)
    requires p < |s.polls| && i < |s.services| && |s.polls[p].phases| == |s.services|
  {
    match s.polls[p].phases[i]
    case Spawned => true
    case Probing(since) => s.polls[p].start.time <= since <= s.now
    case Probed(st) => st.entry == s.services[i] && s.polls[p].start.time <= st.lastCheck <= s.now
    case Written(k) => k < |s.history| && s.history[k].poll == p && s.history[k].service == i
  }

  ghost predicate PollInv(s: State, p: nat)
    requires p < |s.polls|
  {
    var poll := s.polls[p];
    && |poll.phases| == |s.services|
    && poll.start.time <= s.now && poll.start.writes <= |s.history|
    && (forall i | 0 <= i < |s.services| :: PhaseInv(s, p, i))
    && (poll.end.Some? ==>
          AllWritten(poll) && poll.end.value.time <= s.now && poll.end.value.writes <= |s.history|)
  }

  ghost predicate WriteInv(s: State, k: nat)
    requires k < |s.history|
  {
    var w := s.history[k];
    && w.poll < |s.polls| && w.service < |s.services| && w.service < |s.polls[w.poll].phases|
    && s.polls[w.poll].phases[w.service] == Written(k)
    && s.polls[w.poll].start.writes <= k
    && w.status.entry == s.services[w.service]
    && s.polls[w.poll].start.time <= w.status.lastCheck <= w.at <= s.now
    && (s.polls[w.poll].end.Some? ==> k < s.polls[w.poll].end.value.writes && w.at <= s.polls[w.poll].end.value.time)
  }

  ghost predicate Inv(s: State) {
    && (forall p | 0 <= p < |s.polls| :: PollInv(s, p))
    && (forall k | 0 <= k < |s.history| :: WriteInv(s, k))
    && (forall j, k | 0 <= j <= k < |s.history| :: s.history[j].at <= s.history[k].at)
    && Indexed(s.services, s.history)
    && s.statuses == Replay(s.services, InitialStatuses(s.services), s.history)
  }

  lemma {:induction false} InitialStatusesAreUnprobed(services: seq<ServiceEntry>)
    ensures InitialStatuses(services).Keys == Names(services)
    ensures forall n | n in InitialStatuses(services) ::
      exists i | 0 <= i < |services| ::
        services[i].name == n && InitialStatuses(services)[n] == Unprobed(services[i])
  {
    if services != [] {
      var front, last := services[..|services| - 1], services[|services| - 1];
      InitialStatusesAreUnprobed(front);
      assert services == front + [last];
      assert Names(services) == Names(front) + {last.name};
      forall n | n in InitialStatuses(services)
        ensures exists i | 0 <= i < |services| ::
          services[i].name == n && InitialStatuses(services)[n] == Unprobed(services[i])
      {
        if n == last.name {
          assert services[|services| - 1].name == n;
        } else {
          var i :| 0 <= i < |front| && front[i].name == n && InitialStatuses(front)[n] == Unprobed(front[i]);
          assert services[i] == front[i];
        }
      }
    }
  }

  /** Of services that share a name the last registered is the one the new store shows. */
  lemma {:induction false} LastRegisteredIsShown(services: seq<ServiceEntry>, i: nat)
    requires i < |services| && forall j | i < j < |services| :: services[j].name != services[i].name
    ensures services[i].name in InitialStatuses(services)
    ensures InitialStatuses(services)[services[i].name] == ServiceStatus(services[i], "unknown", "", map[], 0, 0, "")
  {
    if i < |services| - 1 {
      LastRegisteredIsShown(services[..|services| - 1], i);
    }
  }

  lemma InitInv(services: seq<ServiceEntry>, now: nat)
    ensures Inv(Init(services, now))
  {
  }

  /** A phase that a step leaves alone still fits. */
  lemma SamePhaseFits(s: State, t: State, p: nat, i: nat)
    requires p < |s.polls| && i < |s.services| && |s.polls[p].phases| == |s.services| && PhaseInv(s, p, i)
    requires p < |t.polls| && t.services == s.services && |t.polls[p].phases| == |s.services|
    requires t.polls[p].phases[i] == s.polls[p].phases[i] && t.polls[p].start == s.polls[p].start
    requires s.now <= t.now && s.history <= t.history
    ensures PhaseInv(t, p, i)
  {
  }

  lemma StepKeepsPhase(s: State, step: Step, p: nat, i: nat)
    requires Inv(s) && Enabled(s, step) && p < |s.polls| && i < |s.services|
    ensures |Apply(s, step).polls| >= |s.polls| && |Apply(s, step).polls[p].phases| == |s.services|
    ensures PhaseInv(Apply(s, step), p, i)
  {
    assert PollInv(s, p) && PhaseInv(s, p, i);
    var t := Apply(s, step);
    if t.polls[p].phases[i] == s.polls[p].phases[i] {
      SamePhaseFits(s, t, p, i);
    }
  }

  lemma StepKeepsPoll(s: State, step: Step, p: nat)
    requires Inv(s) && Enabled(s, step) && p < |Apply(s, step).polls|
    ensures PollInv(Apply(s, step), p)
  {
    var t := Apply(s, step);
    if p < |s.polls| {
      assert PollInv(s, p);
      assert |t.polls[p].phases| == |t.services|;
      forall i | 0 <= i < |t.services| ensures PhaseInv(t, p, i) {
        StepKeepsPhase(s, step, p, i);
      }
    }
  }

  lemma StepKeepsWrite(s: State, step: Step, k: nat)
    requires Inv(s) && Enabled(s, step) && k < |Apply(s, step).history|
    ensures WriteInv(Apply(s, step), k)
  {
    if k < |s.history| {
      assert WriteInv(s, k);
      assert PollInv(s, s.history[k].poll);
    } else {
      assert PollInv(s, step.poll);
      assert PhaseInv(s, step.poll, step.service);
    }
  }

  lemma StepKeepsInv(s: State, step: Step)
    requires Inv(s) && Enabled(s, step)
    ensures Inv(Apply(s, step))
  {
    var t := Apply(s, step);
    forall p | 0 <= p < |t.polls| ensures PollInv(t, p) { StepKeepsPoll(s, step, p); }
    forall k | 0 <= k < |t.history| ensures WriteInv(t, k) { StepKeepsWrite(s, step, k); }
    forall j, k | 0 <= j <= k < |t.history| ensures t.history[j].at <= t.history[k].at {
      if j < |s.history| { assert WriteInv(s, j); }
    }
    if step.WriteBack? {
      assert t.history[..|s.history|] == s.history;
    }
  }

  lemma {:induction false} RunKeepsInv(s: State, steps: seq<Step>)
    requires Inv(s) && CanRun(s, steps)
    ensures Inv(Run(s, steps))
    decreases steps
  {
    if steps != [] {
      StepKeepsInv(s, steps[0]);
      RunKeepsInv(Apply(s, steps[0]), steps[1..]);
    }
  }

  // ---------- No poll can get stuck ----------

  /** How many steps a goroutine still has before it. */
  function Remaining(phase: Phase): nat {
    match phase
    case Spawned => 3
    case Probing(_) => 2
    case Probed(_) => 1
    case Written(_) => 0
  }

  function Work(phases: seq<Phase>): nat {
    if phases == [] then 0 else Remaining(phases[0]) + Work(phases[1..])
  }

  lemma {:induction false} WorkUpdate(phases: seq<Phase>, i: nat, phase: Phase)
    requires i < |phases|
    ensures Work(phases[i := phase]) == Work(phases) - Remaining(phases[i]) + Remaining(phase)
  {
    if i == 0 {
      assert phases[0 := phase][1..] == phases[1..];
    } else {
      assert phases[i := phase][1..] == phases[1..][i - 1 := phase];
      WorkUpdate(phases[1..], i - 1, phase);
    }
  }

  /** The next step of an unfinished goroutine, which brings it closer to the end. */
  lemma NextStep(s: State, p: nat, i: nat) returns (step: Step, phase: Phase)
    requires Inv(s) && Live(s, p, i) && !s.polls[p].phases[i].Written?
    ensures Enabled(s, step) && !step.Tick? && !step.StartPoll? && step.poll == p
    ensures Remaining(phase) < Remaining(s.polls[p].phases[i])
    ensures var t := Apply(s, step);
      |t.polls| == |s.polls| && t.polls[p].end.None? && t.polls[p].phases == s.polls[p].phases[i := phase]
  {
    assert PollInv(s, p) && PhaseInv(s, p, i);
    step := if s.polls[p].phases[i].Spawned? then BeginProbe(p, i)
            else if s.polls[p].phases[i].Probing? then EndProbe(p, i, 0, TransportFailed("context canceled"))
            else WriteBack(p, i);
    phase := Apply(s, step).polls[p].phases[i];
  }

  /** From every reachable state every poll can be brought to return by its own steps alone:
      no goroutine waits for another, and the wait for all of them cannot hang. */
  lemma {:induction false} PollCanReturn(s: State, p: nat) returns (steps: seq<Step>)
    requires Inv(s) && p < |s.polls| && s.polls[p].end.None?
    ensures CanRun(s, steps) && p < |Run(s, steps).polls| && Run(s, steps).polls[p].end.Some?
    ensures forall step | step in steps :: !step.Tick? && !step.StartPoll? && step.poll == p
    decreases Work(s.polls[p].phases)
  {
    assert PollInv(s, p);
    if AllWritten(s.polls[p]) {
      steps := [Return(p)];
      assert steps[1..] == [];
      assert CanRun(Apply(s, Return(p)), []);
    } else {
      var i :| 0 <= i < |s.polls[p].phases| && !s.polls[p].phases[i].Written?;
      var step, phase := NextStep(s, p, i);
      var t := Apply(s, step);
      StepKeepsInv(s, step);
      WorkUpdate(s.polls[p].phases, i, phase);
      var rest := PollCanReturn(t, p);
      steps := [step] + rest;
      assert steps[1..] == rest;
    }
  }

  // ---------- What a later state still knows about an earlier one ----------

  ghost predicate Extends(s: State, t: State) {
    && t.services == s.services && s.now <= t.now && s.history <= t.history && |s.polls| <= |t.polls|
    && (forall p | 0 <= p < |s.polls| ::
          && t.polls[p].start == s.polls[p].start
          && |t.polls[p].phases| == |s.polls[p].phases|
          && (s.polls[p].end.Some? ==> t.polls[p] == s.polls[p]))
  }

  lemma {:induction false} RunExtends(s: State, steps: seq<Step>)
    requires CanRun(s, steps)
    ensures Extends(s, Run(s, steps))
    decreases steps
  {
    if steps != [] {
      RunExtends(Apply(s, steps[0]), steps[1..]);
    }
  }

  // ---------- Snapshots ----------

  /** Shape of a snapshot: one status per service, in registration order, each the stored one. */
  lemma {:induction false} CollectIsPointwise(services: seq<ServiceEntry>, m: map<string, ServiceStatus>)
    requires forall svc | svc in services :: svc.name in m
    ensures |Collect(services, m)| == |services|
    ensures forall i | 0 <= i < |services| :: Collect(services, m)[i] == m[services[i].name]
  {
    if services != [] {
      assert services[0] in services;
      CollectIsPointwise(services[1..], m);
    }
  }

  /** The store, name by name: the last write to that name, or else what it began with. */
  lemma StoreByName(s: State)
    requires Inv(s)
    ensures s.statuses.Keys == Names(s.services) == InitialStatuses(s.services).Keys
    ensures forall n | n in s.statuses ::
      var k := LastWrite(s.services, s.history, n);
      s.statuses[n] == if k < 0 then InitialStatuses(s.services)[n] else s.history[k].status
  {
    InitialStatusesAreUnprobed(s.services);
    forall n
      ensures n in s.statuses <==> n in InitialStatuses(s.services)
      ensures n in s.statuses ==>
        var k := LastWrite(s.services, s.history, n);
        s.statuses[n] == if k < 0 then InitialStatuses(s.services)[n] else s.history[k].status
    {
      ReplayKeepsLastWrite(s.services, InitialStatuses(s.services), s.history, n);
      var k := LastWrite(s.services, s.history, n);
      if k >= 0 { assert s.services[s.history[k].service] in s.services; }
    }
  }

  /** In every reachable state, duplicates or not, the keys are exactly the registered names,
      every entry is filed under its own name, and a snapshot has one element per service in
      registration order.  With distinct names each element carries the service it stands for. */
  lemma SnapshotShape(services: seq<ServiceEntry>, now: nat, steps: seq<Step>)
    requires CanRun(Init(services, now), steps)
    ensures var s := Run(Init(services, now), steps);
      && s.statuses.Keys == Names(services)
      && (forall n | n in s.statuses :: s.statuses[n].entry.name == n && s.statuses[n].entry in services)
      && |Snapshot(s)| == |services|
      && (forall i | 0 <= i < |services| ::
            Snapshot(s)[i] == s.statuses[services[i].name] && Snapshot(s)[i].entry.name == services[i].name)
      && (DistinctNames(services) ==> forall i | 0 <= i < |services| :: Snapshot(s)[i].entry == services[i])
  {
    InitInv(services, now);
    RunKeepsInv(Init(services, now), steps);
    RunExtends(Init(services, now), steps);
    SnapshotOfInv(Run(Init(services, now), steps));
  }

  lemma EntriesAreFiled(s: State)
    requires Inv(s)
    ensures s.statuses.Keys == Names(s.services)
    ensures forall n | n in s.statuses :: s.statuses[n].entry.name == n && s.statuses[n].entry in s.services
  {
    InitialStatusesAreUnprobed(s.services);
    StoreByName(s);
    forall n | n in s.statuses
      ensures s.statuses[n].entry.name == n && s.statuses[n].entry in s.services
    {
      var k := LastWrite(s.services, s.history, n);
      if k >= 0 { assert WriteInv(s, k); }
    }
  }

  lemma SnapshotOfInv(s: State)
    requires Inv(s)
    ensures s.statuses.Keys == Names(s.services)
    ensures forall n | n in s.statuses :: s.statuses[n].entry.name == n && s.statuses[n].entry in s.services
    ensures |Snapshot(s)| == |s.services|
    ensures forall i | 0 <= i < |s.services| ::
      s.services[i].name in s.statuses && Snapshot(s)[i] == s.statuses[s.services[i].name]
      && Snapshot(s)[i].entry.name == s.services[i].name
    ensures DistinctNames(s.services) ==> forall i | 0 <= i < |s.services| :: Snapshot(s)[i].entry == s.services[i]
  {
    EntriesAreFiled(s);
    CollectIsPointwise(s.services, s.statuses);
    forall i | 0 <= i < |s.services|
      ensures s.services[i].name in s.statuses && Snapshot(s)[i] == s.statuses[s.services[i].name]
      ensures DistinctNames(s.services) ==> Snapshot(s)[i].entry == s.services[i]
    {
      assert s.services[i] in s.services;
      if DistinctNames(s.services) {
        var e := Snapshot(s)[i].entry;
        var j :| 0 <= j < |s.services| && s.services[j] == e;
        assert s.services[j].name == s.services[i].name;
        assert j == i;
      }
    }
  }

  // ---------- Freshness ----------

  function LatestWrite(s: State, i: nat): int
    requires i < |s.services| && Indexed(s.services, s.history)
  {
    LastWrite(s.services, s.history, s.services[i].name)
  }

  /** A snapshot shows the latest write to each name; before the first, the zero time. */
  lemma SnapshotShowsLatestWrite(s: State, i: nat)
    requires Inv(s) && i < |s.services|
    ensures |Snapshot(s)| == |s.services|
    ensures LatestWrite(s, i) >= 0 ==> Snapshot(s)[i] == s.history[LatestWrite(s, i)].status
    ensures LatestWrite(s, i) < 0 ==>
      && s.services[i].name in InitialStatuses(s.services)
      && Snapshot(s)[i] == InitialStatuses(s.services)[s.services[i].name]
    ensures LatestWrite(s, i) < 0 ==> Snapshot(s)[i].lastCheck == 0 && Snapshot(s)[i].status == "unknown"
  {
    SnapshotOfInv(s);
    StoreByName(s);
    InitialStatusesAreUnprobed(s.services);
  }

  lemma LatestWriteGrows(s: State, t: State, i: nat)
    requires Inv(s) && Inv(t) && Extends(s, t) && i < |s.services|
    ensures LatestWrite(s, i) <= LatestWrite(t, i)
    ensures LatestWrite(s, i) >= 0 ==> t.history[LatestWrite(s, i)] == s.history[LatestWrite(s, i)]
  {
  }

  /** A service shown differently later has been written in between. */
  lemma ChangedMeansWritten(s: State, steps: seq<Step>, i: nat)
    requires Inv(s) && CanRun(s, steps) && i < |s.services|
    ensures Inv(Run(s, steps)) && Run(s, steps).services == s.services
    ensures |Snapshot(s)| == |s.services| == |Snapshot(Run(s, steps))|
    ensures Snapshot(s)[i] != Snapshot(Run(s, steps))[i] ==> LatestWrite(Run(s, steps), i) >= |s.history|
  {
    var t := Run(s, steps);
    RunKeepsInv(s, steps);
    RunExtends(s, steps);
    SnapshotShowsLatestWrite(s, i);
    SnapshotShowsLatestWrite(t, i);
    LatestWriteGrows(s, t, i);
    var k := LatestWrite(t, i);
    if 0 <= k < |s.history| {
      assert s.history[k] == t.history[k];
      assert k == LatestWrite(s, i);
    }
  }

  /** Once poll p has returned, every later snapshot shows, for each service, the value p
      wrote or one written after it in lock order. */
  lemma FreshAfterReturn(s: State, p: nat, steps: seq<Step>, i: nat)
    requires Inv(s) && p < |s.polls| && s.polls[p].end.Some? && i < |s.services|
    requires CanRun(s, steps)
    ensures var t := Run(s, steps);
      && |Snapshot(t)| == |s.services| == |s.polls[p].phases|
      && s.polls[p].phases[i].Written?
      && exists k ::
           && s.polls[p].phases[i].slot <= k < |t.history|
           && t.history[k].service < |s.services|
           && s.services[t.history[k].service].name == s.services[i].name
           && Snapshot(t)[i] == t.history[k].status
  {
    var t := Run(s, steps);
    assert PollInv(s, p) && PhaseInv(s, p, i);
    RunKeepsInv(s, steps);
    RunExtends(s, steps);
    SnapshotShowsLatestWrite(t, i);
    LatestWriteGrows(s, t, i);
    assert s.polls[p].phases[i].slot <= LatestWrite(s, i) <= LatestWrite(t, i);
  }

  /** The value poll p wrote for service i. */
  function ResultOf(s: State, p: nat, i: nat): ServiceStatus
    requires p < |s.polls| && i < |s.polls[p].phases| && s.polls[p].phases[i].Written?
    requires s.polls[p].phases[i].slot < |s.history|
  {
    s.history[s.polls[p].phases[i].slot].status
  }

  /** No other poll interferes with p: it was over before p began, or has not written yet. */
  ghost predicate Undisturbed(s: State, p: nat)
    requires p < |s.polls|
  {
    forall q | 0 <= q < |s.polls| && q != p ::
      || (s.polls[q].end.Some? && s.polls[q].end.value.writes <= s.polls[p].start.writes)
      || (forall i | 0 <= i < |s.polls[q].phases| :: !s.polls[q].phases[i].Written?)
  }

  /** After an undisturbed poll every snapshot shows one of its writes, distinct names or not. */
  lemma LatestIsOwn(s: State, p: nat, i: nat)
    requires Inv(s) && p < |s.polls| && s.polls[p].end.Some? && i < |s.services| && Undisturbed(s, p)
    ensures |s.services| == |s.polls[p].phases|
    ensures s.polls[p].phases[i].Written? && s.polls[p].phases[i].slot <= LatestWrite(s, i)
    ensures var w := s.history[LatestWrite(s, i)];
      && w.poll == p && w.service < |s.services| && s.polls[p].phases[w.service] == Written(LatestWrite(s, i))
      && s.services[w.service].name == s.services[i].name
  {
    assert PollInv(s, p) && PhaseInv(s, p, i);
    var k := LatestWrite(s, i);
    assert s.polls[p].phases[i].slot <= k;
    assert WriteInv(s, k) && WriteInv(s, s.polls[p].phases[i].slot);
  }

  /** With distinct names and no overlapping poll, a snapshot after the return is exactly
      the results of that poll. */
  lemma SnapshotIsPollResult(s: State, p: nat, i: nat)
    requires Inv(s) && p < |s.polls| && s.polls[p].end.Some? && i < |s.services|
    requires DistinctNames(s.services) && Undisturbed(s, p)
    ensures |Snapshot(s)| == |s.services| == |s.polls[p].phases|
    ensures s.polls[p].phases[i].Written? && s.polls[p].phases[i].slot < |s.history|
    ensures Snapshot(s)[i] == ResultOf(s, p, i)
  {
    SnapshotShowsLatestWrite(s, i);
    LatestIsOwn(s, p, i);
    assert s.history[LatestWrite(s, i)].service == i;
  }

  // ---------- How far LastCheck can move back ----------

  /** Every write so far happened within `bound` of the moment its probe was stamped. */
  predicate Timely(s: State, bound: nat) {
    forall k | 0 <= k < |s.history| :: s.history[k].at <= s.history[k].status.lastCheck + bound
  }

  /** Over any interleaving of any number of polls, a service's stored LastCheck never moves
      back by more than the write-back delay. */
  lemma LastCheckRegressionIsBounded(s: State, steps: seq<Step>, bound: nat, i: nat)
    requires Inv(s) && CanRun(s, steps) && i < |s.services|
    requires Timely(Run(s, steps), bound)
    ensures |Snapshot(s)| == |s.services| == |Snapshot(Run(s, steps))|
    ensures Snapshot(s)[i].lastCheck <= Snapshot(Run(s, steps))[i].lastCheck + bound
  {
    var t := Run(s, steps);
    RunKeepsInv(s, steps);
    RunExtends(s, steps);
    SnapshotShowsLatestWrite(s, i);
    SnapshotShowsLatestWrite(t, i);
    LatestWriteGrows(s, t, i);
    var j, k := LatestWrite(s, i), LatestWrite(t, i);
    if j >= 0 {
      assert WriteInv(t, j) && WriteInv(t, k);
    }
  }

  // ---------- The serial polling loop ----------

  /** The polling loop starts a poll only when the one before has returned. */
  predicate SerialRun(s: State, steps: seq<Step>)
    requires CanRun(s, steps)
    decreases steps
  {
    steps != [] ==>
      && (steps[0].StartPoll? ==> forall p | 0 <= p < |s.polls| :: s.polls[p].end.Some?)
      && SerialRun(Apply(s, steps[0]), steps[1..])
  }

  ghost predicate SerialInv(s: State) {
    forall p, q | 0 <= p < q < |s.polls| :: Precedes(s.polls[p], s.polls[q])
  }

  /** The first poll had returned when the second started. */
  predicate Precedes(first: PollRun, second: PollRun) {
    && first.end.Some?
    && first.end.value.time <= second.start.time
    && first.end.value.writes <= second.start.writes
  }

  lemma SerialStepKeeps(s: State, step: Step)
    requires Inv(s) && SerialInv(s) && Enabled(s, step)
    requires step.StartPoll? ==> forall p | 0 <= p < |s.polls| :: s.polls[p].end.Some?
    ensures SerialInv(Apply(s, step))
  {
    var t := Apply(s, step);
    forall p, q | 0 <= p < q < |t.polls|
      ensures Precedes(t.polls[p], t.polls[q])
    {
      assert PollInv(s, p);
      if q < |s.polls| { assert Precedes(s.polls[p], s.polls[q]); }
    }
  }

  lemma {:induction false} SerialRunKeeps(s: State, steps: seq<Step>)
    requires Inv(s) && SerialInv(s) && CanRun(s, steps) && SerialRun(s, steps)
    ensures SerialInv(Run(s, steps))
    decreases steps
  {
    if steps != [] {
      SerialStepKeeps(s, steps[0]);
      StepKeepsInv(s, steps[0]);
      SerialRunKeeps(Apply(s, steps[0]), steps[1..]);
    }
  }

  lemma SerialWritesAreOrdered(t: State, j: nat, k: nat)
    requires Inv(t) && SerialInv(t) && DistinctNames(t.services)
    requires j <= k < |t.history|
    requires t.services[t.history[j].service].name == t.services[t.history[k].service].name
    ensures t.history[j].status.lastCheck <= t.history[k].status.lastCheck
  {
    assert WriteInv(t, j) && WriteInv(t, k);
    var p, q := t.history[j].poll, t.history[k].poll;
    assert t.history[j].service == t.history[k].service;
    if p != q {
      var lo, hi := if p < q then p else q, if p < q then q else p;
      assert Precedes(t.polls[lo], t.polls[hi]);
    }
  }

  /** When polls come only from the serial loop and names are distinct, no service's stored
      LastCheck ever moves back. */
  lemma SerialLastCheckIsMonotone(s: State, steps: seq<Step>, i: nat)
    requires Inv(s) && SerialInv(s) && CanRun(s, steps) && SerialRun(s, steps)
    requires DistinctNames(s.services) && i < |s.services|
    ensures |Snapshot(s)| == |s.services| == |Snapshot(Run(s, steps))|
    ensures Snapshot(s)[i].lastCheck <= Snapshot(Run(s, steps))[i].lastCheck
  {
    var t := Run(s, steps);
    RunKeepsInv(s, steps);
    RunExtends(s, steps);
    SerialRunKeeps(s, steps);
    SnapshotShowsLatestWrite(s, i);
    SnapshotShowsLatestWrite(t, i);
    LatestWriteGrows(s, t, i);
    var j, k := LatestWrite(s, i), LatestWrite(t, i);
    if j >= 0 {
      SerialWritesAreOrdered(t, j, k);
    }
  }

  /** In the serial loop nothing disturbs the latest poll, so between its return and the next
      write a snapshot is exactly what that poll found. */
  lemma SerialSnapshotIsLatestPoll(s: State, i: nat)
    requires Inv(s) && SerialInv(s) && DistinctNames(s.services) && i < |s.services|
    requires s.polls != [] && s.polls[|s.polls| - 1].end.Some?
    ensures |Snapshot(s)| == |s.services|
    ensures |s.polls[|s.polls| - 1].phases| == |s.services|
    ensures s.polls[|s.polls| - 1].phases[i].Written? && s.polls[|s.polls| - 1].phases[i].slot < |s.history|
    ensures Snapshot(s)[i] == ResultOf(s, |s.polls| - 1, i)
  {
    SnapshotIsPollResult(s, |s.polls| - 1, i);
  }

  // ---------- Putting runs together ----------

  lemma {:induction false} RunConcat(s: State, a: seq<Step>, b: seq<Step>)
    requires CanRun(s, a) && CanRun(Run(s, a), b)
    ensures CanRun(s, a + b)
    ensures Run(s, a + b) == Run(Run(s, a), b)
    decreases a
  {
    if a == [] {
      assert a + b == b;
    } else {
      assert (a + b)[1..] == a[1..] + b;
      RunConcat(Apply(s, a[0]), a[1..], b);
    }
  }

  lemma RunOne(s: State, step: Step)
    requires Enabled(s, step)
    ensures CanRun(s, [step]) && Run(s, [step]) == Apply(s, step)
  {
    assert [step][1..] == [];
    assert CanRun(Apply(s, step), []) && Run(Apply(s, step), []) == Apply(s, step);
  }

  /** The rest of a goroutine that is already probing. */
  function FinishSteps(p: nat, i: nat, outcome: ProbeOutcome): seq<Step> {
    [EndProbe(p, i, 0, outcome)] + [WriteBack(p, i)]
  }

  /** All of a goroutine, uninterrupted. */
  function ProbeSteps(p: nat, i: nat, outcome: ProbeOutcome): seq<Step> {
    [BeginProbe(p, i)] + FinishSteps(p, i, outcome)
  }

  /** t is s after goroutine i of poll p has written `status`, and nothing else has happened. */
  ghost predicate Wrote(s: State, t: State, p: nat, i: nat, status: ServiceStatus)
    requires Live(s, p, i)
  {
    && t.services == s.services && t.now == s.now
    && t.history == s.history + [Write(p, i, status, s.now)]
    && t.polls == s.polls[p := s.polls[p].(phases := s.polls[p].phases[i := Written(|s.history|)])]
  }

  lemma WroteElsewhere(s: State, t: State, q: nat, j: nat, status: ServiceStatus, p: nat, i: nat)
    requires Live(s, q, j) && Wrote(s, t, q, j, status) && Live(s, p, i) && (p != q || i != j)
    ensures Live(t, p, i) && t.polls[p].phases[i] == s.polls[p].phases[i]
  {
  }

  lemma WroteTimely(s: State, t: State, p: nat, i: nat, status: ServiceStatus, bound: nat)
    requires Live(s, p, i) && Wrote(s, t, p, i, status)
    requires Timely(s, bound) && s.now <= status.lastCheck + bound
    ensures Timely(t, bound)
  {
  }

  lemma FinishRuns(s: State, p: nat, i: nat, outcome: ProbeOutcome)
    requires Live(s, p, i) && s.polls[p].phases[i].Probing? && s.polls[p].phases[i].since <= s.now
    ensures CanRun(s, FinishSteps(p, i, outcome))
    ensures Wrote(s, Run(s, FinishSteps(p, i, outcome)), p, i,
      ProbeResult(s.services[i], s.polls[p].phases[i].since, 0, outcome))
  {
    var end, write := EndProbe(p, i, 0, outcome), WriteBack(p, i);
    RunOne(s, end);
    RunOne(Apply(s, end), write);
    RunConcat(s, [end], [write]);
    var t := Run(s, FinishSteps(p, i, outcome));
    assert t.polls[p].phases == s.polls[p].phases[i := Written(|s.history|)];
  }

  lemma ProbeRuns(s: State, p: nat, i: nat, outcome: ProbeOutcome)
    requires Live(s, p, i) && s.polls[p].phases[i].Spawned?
    ensures CanRun(s, ProbeSteps(p, i, outcome))
    ensures Wrote(s, Run(s, ProbeSteps(p, i, outcome)), p, i, ProbeResult(s.services[i], s.now, 0, outcome))
  {
    var begin := BeginProbe(p, i);
    RunOne(s, begin);
    FinishRuns(Apply(s, begin), p, i, outcome);
    RunConcat(s, [begin], FinishSteps(p, i, outcome));
    var t := Run(s, ProbeSteps(p, i, outcome));
    assert t.polls[p].phases == s.polls[p].phases[i := Written(|s.history|)];
  }

  /** From the stamp to the store: what service i's goroutine leaves there carries the service,
      the moment it began, the time its request took, and what the answer comes to. */
  lemma ProbeJourney(s: State, p: nat, i: nat, pause: nat, latency: nat, outcome: ProbeOutcome)
    requires Live(s, p, i) && s.polls[p].phases[i].Spawned? && latency <= pause
    ensures var finish := [EndProbe(p, i, latency, outcome)] + [WriteBack(p, i)];
      var steps := [BeginProbe(p, i)] + ([Tick(pause)] + finish);
      && CanRun(s, steps) && s.services[i].name in Run(s, steps).statuses
      && var st := Run(s, steps).statuses[s.services[i].name];
      && st.entry == s.services[i] && st.lastCheck == s.now
      && st.latency == (if outcome.BuildFailed? then 0 else latency)
      && (st.error == "" <==> outcome.Decoded? || (outcome.TransportFailed? && outcome.message == ""))
      && (outcome.Decoded? ==> st.version == outcome.body.version && st.checks == outcome.body.checks)
  {
    var begin, tick := BeginProbe(p, i), Tick(pause);
    var end, write := EndProbe(p, i, latency, outcome), WriteBack(p, i);
    var s1 := Apply(s, begin);
    var s2 := Apply(s1, tick);
    var s3 := Apply(s2, end);
    RunOne(s, begin);
    RunOne(s1, tick);
    RunOne(s2, end);
    RunOne(s3, write);
    RunConcat(s2, [end], [write]);
    RunConcat(s1, [tick], [end] + [write]);
    RunConcat(s, [begin], [tick] + ([end] + [write]));
  }

  /** The goroutines of poll p from service k on, one after the other, each meeting its outcome. */
  function PollSteps(p: nat, k: nat, outcomes: seq<ProbeOutcome>): seq<Step>
    decreases |outcomes| - k
  {
    if k >= |outcomes| then [] else ProbeSteps(p, k, outcomes[k]) + PollSteps(p, k + 1, outcomes)
  }

  /** From s to t the goroutines of poll p from service k on have done their work, and
      nothing else has been written. */
  ghost predicate PolledFrom(s: State, t: State, p: nat, k: nat, outcomes: seq<ProbeOutcome>)
    requires p < |s.polls| && |s.polls[p].phases| == |s.services| == |outcomes|
  {
    && t.services == s.services && t.now == s.now && s.history <= t.history && |t.polls| == |s.polls|
    && (forall q | 0 <= q < |s.polls| && q != p :: t.polls[q] == s.polls[q])
    && t.polls[p].end == s.polls[p].end && t.polls[p].start == s.polls[p].start
    && |t.polls[p].phases| == |s.services|
    && (forall i | 0 <= i < k && i < |s.services| :: t.polls[p].phases[i] == s.polls[p].phases[i])
    && (forall i | k <= i < |s.services| :: t.polls[p].phases[i].Written? && t.polls[p].phases[i].slot >= |s.history|)
    && (forall m | |s.history| <= m < |t.history| ::
          t.history[m].service < |s.services|
          && t.history[m].status ==
               ProbeResult(s.services[t.history[m].service], s.now, 0, outcomes[t.history[m].service]))
  }

  lemma PolledOneMore(s: State, s': State, t: State, p: nat, k: nat, outcomes: seq<ProbeOutcome>)
    requires Live(s, p, k) && |s.polls[p].phases| == |s.services| == |outcomes|
    requires Wrote(s, s', p, k, ProbeResult(s.services[k], s.now, 0, outcomes[k]))
    requires PolledFrom(s', t, p, k + 1, outcomes)
    ensures PolledFrom(s, t, p, k, outcomes)
  {
    assert s'.polls[p].phases[k] == Written(|s.history|);
    assert t.history[|s.history|] == s'.history[|s.history|];
  }

  lemma {:induction false} PollRuns(s: State, p: nat, k: nat, outcomes: seq<ProbeOutcome>)
    requires p < |s.polls| && s.polls[p].end.None? && |s.polls[p].phases| == |s.services| == |outcomes|
    requires forall i | k <= i < |s.services| :: s.polls[p].phases[i].Spawned?
    ensures CanRun(s, PollSteps(p, k, outcomes))
    ensures PolledFrom(s, Run(s, PollSteps(p, k, outcomes)), p, k, outcomes)
    decreases |s.services| - k
  {
    if k < |s.services| {
      ProbeRuns(s, p, k, outcomes[k]);
      var s' := Run(s, ProbeSteps(p, k, outcomes[k]));
      PollRuns(s', p, k + 1, outcomes);
      PolledOneMore(s, s', Run(s', PollSteps(p, k + 1, outcomes)), p, k, outcomes);
      RunConcat(s, ProbeSteps(p, k, outcomes[k]), PollSteps(p, k + 1, outcomes));
    }
  }

  /** Each service shows what a goroutine for its name has just written. */
  lemma PolledShows(s: State, t: State, p: nat, i: nat, outcomes: seq<ProbeOutcome>)
    requires Inv(t) && p < |s.polls| && |s.polls[p].phases| == |s.services| == |outcomes| && i < |s.services|
    requires PolledFrom(s, t, p, 0, outcomes)
    ensures |Snapshot(t)| == |s.services|
    ensures exists j | 0 <= j < |s.services| :: Snapshot(t)[i] == ProbeResult(s.services[j], s.now, 0, outcomes[j])
  {
    assert PollInv(t, p) && PhaseInv(t, p, i);
    SnapshotShowsLatestWrite(t, i);
    var k := LatestWrite(t, i);
    assert t.polls[p].phases[i].slot <= k;
    assert t.history[k].service < |s.services|;
  }

  /** Poll p has written for service i what it made of outcomes[i], at time `now`; and service
      i shows what p made of the outcome of a service of its name. */
  ghost predicate Fetched(t: State, p: nat, i: nat, now: nat, outcomes: seq<ProbeOutcome>)
    requires p < |t.polls| && i < |t.services| == |outcomes|
  {
    && i < |t.polls[p].phases| && t.polls[p].phases[i].Written? && t.polls[p].phases[i].slot < |t.history|
    && ResultOf(t, p, i) == ProbeResult(t.services[i], now, 0, outcomes[i])
    && i < |Snapshot(t)|
    && exists j | 0 <= j < |t.services| :: Snapshot(t)[i] == ProbeResult(t.services[j], now, 0, outcomes[j])
  }

  lemma PolledFetches(s: State, t: State, p: nat, i: nat, outcomes: seq<ProbeOutcome>)
    requires Inv(t) && p < |s.polls| && |s.polls[p].phases| == |s.services| == |outcomes| && i < |s.services|
    requires PolledFrom(s, t, p, 0, outcomes)
    ensures Fetched(t, p, i, s.now, outcomes)
  {
    assert PollInv(t, p) && PhaseInv(t, p, i);
    PolledShows(s, t, p, i, outcomes);
  }

  lemma ReturnKeepsFetched(t: State, p: nat, i: nat, now: nat, outcomes: seq<ProbeOutcome>)
    requires p < |t.polls| && i < |t.services| == |outcomes| && Enabled(t, Return(p))
    requires Fetched(t, p, i, now, outcomes)
    ensures Fetched(Apply(t, Return(p)), p, i, now, outcomes)
  {
    assert Snapshot(Apply(t, Return(p))) == Snapshot(t);
  }

  lemma PolledUndisturbed(s: State, t: State, outcomes: seq<ProbeOutcome>)
    requires Inv(s) && |outcomes| == |s.services| && forall q | 0 <= q < |s.polls| :: s.polls[q].end.Some?
    requires PolledFrom(Apply(s, StartPoll), t, |s.polls|, 0, outcomes) && Enabled(t, Return(|s.polls|))
    ensures Undisturbed(Apply(t, Return(|s.polls|)), |s.polls|)
  {
    var u := Apply(t, Return(|s.polls|));
    forall q | 0 <= q < |s.polls|
      ensures u.polls[q].end.Some? && u.polls[q].end.value.writes <= u.polls[|s.polls|].start.writes
    {
      assert PollInv(s, q);
      assert t.polls[q] == Apply(s, StartPoll).polls[q] == s.polls[q];
    }
  }

  /** From every reachable state a whole poll can run, whatever its probes are to meet, and
      then each service shows what was just met under its name.  If no poll was under way, no
      poll has disturbed it. */
  lemma WholePoll(s: State, outcomes: seq<ProbeOutcome>) returns (steps: seq<Step>)
    requires Inv(s) && |outcomes| == |s.services|
    ensures CanRun(s, steps)
    ensures var t, p := Run(s, steps), |s.polls|;
      && Inv(t) && t.services == s.services && |Snapshot(t)| == |s.services|
      && |t.polls| == p + 1 && t.polls[p].end.Some? && |t.polls[p].phases| == |s.services|
      && (forall i | 0 <= i < |s.services| :: Fetched(t, p, i, s.now, outcomes))
      && ((forall q | 0 <= q < p :: s.polls[q].end.Some?) ==> Undisturbed(t, p))
  {
    var p, s1 := |s.polls|, Apply(s, StartPoll);
    RunOne(s, StartPoll);
    PollRuns(s1, p, 0, outcomes);
    var work := PollSteps(p, 0, outcomes);
    RunConcat(s, [StartPoll], work);
    RunKeepsInv(s, [StartPoll] + work);
    var t := Run(s, [StartPoll] + work);
    RunOne(t, Return(p));
    steps := ([StartPoll] + work) + [Return(p)];
    RunConcat(s, [StartPoll] + work, [Return(p)]);
    StepKeepsInv(t, Return(p));
    SnapshotOfInv(Apply(t, Return(p)));
    forall i | 0 <= i < |s.services| ensures Fetched(Apply(t, Return(p)), p, i, s.now, outcomes) {
      PolledFetches(s1, t, p, i, outcomes);
      ReturnKeepsFetched(t, p, i, s.now, outcomes);
    }
    if forall q | 0 <= q < p :: s.polls[q].end.Some? {
      PolledUndisturbed(s, t, outcomes);
    }
  }

  // ---------- Exactly when LastCheck is monotone ----------

  /** What service j's goroutine writes is what a snapshot then shows under that name. */
  lemma ProbeShows(s: State, p: nat, j: nat, i: nat, outcome: ProbeOutcome)
    requires Inv(s) && Live(s, p, j) && s.polls[p].phases[j].Spawned?
    requires i < |s.services| && s.services[j].name == s.services[i].name
    ensures CanRun(s, ProbeSteps(p, j, outcome))
    ensures var t := Run(s, ProbeSteps(p, j, outcome));
      && Inv(t) && Wrote(s, t, p, j, ProbeResult(s.services[j], s.now, 0, outcome))
      && |Snapshot(t)| == |s.services| && Snapshot(t)[i].lastCheck == s.now
  {
    ProbeRuns(s, p, j, outcome);
    var t := Run(s, ProbeSteps(p, j, outcome));
    RunKeepsInv(s, ProbeSteps(p, j, outcome));
    SnapshotShowsLatestWrite(t, i);
    assert t.history[|s.history|].service == j;
  }

  lemma FinishShows(s: State, p: nat, i: nat, outcome: ProbeOutcome)
    requires Inv(s) && Live(s, p, i)
    requires s.polls[p].phases[i].Probing? && s.polls[p].phases[i].since <= s.now
    ensures CanRun(s, FinishSteps(p, i, outcome))
    ensures var t, since := Run(s, FinishSteps(p, i, outcome)), s.polls[p].phases[i].since;
      && Inv(t) && Wrote(s, t, p, i, ProbeResult(s.services[i], since, 0, outcome))
      && |Snapshot(t)| == |s.services| && Snapshot(t)[i].lastCheck == since
  {
    FinishRuns(s, p, i, outcome);
    var t := Run(s, FinishSteps(p, i, outcome));
    RunKeepsInv(s, FinishSteps(p, i, outcome));
    SnapshotShowsLatestWrite(t, i);
    assert t.history[|s.history|].service == i;
  }

  /** A timely run from s takes the LastCheck shown for service i back by exactly `gap`. */
  ghost predicate MovesBackBy(s: State, steps: seq<Step>, i: nat, gap: nat) {
    && CanRun(s, steps) && Timely(Run(s, steps), gap)
    && i < |Snapshot(s)| && i < |Snapshot(Run(s, steps))|
    && Snapshot(s)[i].lastCheck == Snapshot(Run(s, steps))[i].lastCheck + gap
  }

  /** One goroutine overtakes another: (p, i) began to probe some time ago, (q, j) is still to
      begin, and the two services share a name.  Then (q, j) may write first and (p, i) after
      it, and LastCheck moves back by all the time that had gone by. */
  lemma Overtaking(s: State, p: nat, i: nat, q: nat, j: nat, outcome: ProbeOutcome, gap: nat)
    requires Inv(s) && Live(s, p, i) && Live(s, q, j)
    requires s.polls[p].phases[i].Probing? && s.polls[q].phases[j].Spawned?
    requires s.services[i].name == s.services[j].name
    requires s.now == s.polls[p].phases[i].since + gap && Timely(s, gap)
    ensures CanRun(s, ProbeSteps(q, j, outcome))
    ensures MovesBackBy(Run(s, ProbeSteps(q, j, outcome)), FinishSteps(p, i, outcome), i, gap)
  {
    ProbeShows(s, q, j, i, outcome);
    var mid := Run(s, ProbeSteps(q, j, outcome));
    WroteElsewhere(s, mid, q, j, ProbeResult(s.services[j], s.now, 0, outcome), p, i);
    FinishShows(mid, p, i, outcome);
    WroteTimely(s, mid, q, j, ProbeResult(s.services[j], s.now, 0, outcome), gap);
    WroteTimely(mid, Run(mid, FinishSteps(p, i, outcome)), p, i,
      ProbeResult(s.services[i], s.polls[p].phases[i].since, 0, outcome), gap);
  }

  /** Poll p, just started, whose goroutine i has been probing for `delay`. */
  ghost predicate Lagging(s: State, t: State, i: nat, delay: nat) {
    var p := |s.polls|;
    && t.services == s.services && t.now == s.now + delay && t.history == s.history
    && |t.polls| == p + 1 && |t.polls[p].phases| == |s.services| && t.polls[p].end.None?
    && (forall j | 0 <= j < |s.services| :: t.polls[p].phases[j] == if j == i then Probing(s.now) else Spawned)
  }

  function LagSteps(p: nat, i: nat, delay: nat): seq<Step> { [StartPoll] + ([BeginProbe(p, i)] + [Tick(delay)]) }

  lemma LagRuns(s: State, i: nat, delay: nat)
    requires i < |s.services|
    ensures CanRun(s, LagSteps(|s.polls|, i, delay))
    ensures Lagging(s, Run(s, LagSteps(|s.polls|, i, delay)), i, delay)
  {
    var p := |s.polls|;
    RunOne(s, StartPoll);
    var s1 := Apply(s, StartPoll);
    RunOne(s1, BeginProbe(p, i));
    var s2 := Apply(s1, BeginProbe(p, i));
    RunOne(s2, Tick(delay));
    RunConcat(s1, [BeginProbe(p, i)], [Tick(delay)]);
    RunConcat(s, [StartPoll], [BeginProbe(p, i)] + [Tick(delay)]);
  }

  /** The bound on the regression is reached: from every reachable state that has kept to a
      delay, for every service, two overlapping polls can take LastCheck back by exactly it. */
  lemma RegressionBoundIsTight(s: State, i: nat, delay: nat) returns (a: seq<Step>, b: seq<Step>)
    requires Inv(s) && Timely(s, delay) && i < |s.services|
    ensures CanRun(s, a) && MovesBackBy(Run(s, a), b, i, delay)
  {
    var p := |s.polls|;
    LagRuns(s, i, delay);
    var lag := LagSteps(p, i, delay);
    var s1 := Run(s, lag);
    RunOne(s1, StartPoll);
    var s2 := Apply(s1, StartPoll);
    RunConcat(s, lag, [StartPoll]);
    RunKeepsInv(s, lag + [StartPoll]);
    var outcome := TransportFailed("timeout");
    Overtaking(s2, p, i, p + 1, i, outcome, delay);
    a, b := (lag + [StartPoll]) + ProbeSteps(p + 1, i, outcome), FinishSteps(p, i, outcome);
    RunConcat(s, lag + [StartPoll], ProbeSteps(p + 1, i, outcome));
  }

  lemma {:induction false} NoStartIsSerial(s: State, steps: seq<Step>)
    requires CanRun(s, steps) && forall step | step in steps :: !step.StartPoll?
    ensures SerialRun(s, steps)
    decreases steps
  {
    if steps != [] {
      NoStartIsSerial(Apply(s, steps[0]), steps[1..]);
    }
  }

  /** Serial polling does not help two services that share a name: from every reachable state
      with no poll under way that has kept to `gap`, one poll can take LastCheck back by it. */
  lemma SharedNamesBreakMonotonicity(s: State, i: nat, j: nat, gap: nat) returns (a: seq<Step>, b: seq<Step>)
    requires Inv(s) && Timely(s, gap) && i < |s.services| && j < |s.services| && i != j
    requires s.services[i].name == s.services[j].name
    requires forall p | 0 <= p < |s.polls| :: s.polls[p].end.Some?
    ensures CanRun(s, a) && SerialRun(s, a) && MovesBackBy(Run(s, a), b, i, gap)
    ensures SerialRun(Run(s, a), b)
  {
    var p := |s.polls|;
    LagRuns(s, i, gap);
    var lag := LagSteps(p, i, gap);
    RunKeepsInv(s, lag);
    var outcome := TransportFailed("timeout");
    Overtaking(Run(s, lag), p, i, p, j, outcome, gap);
    a, b := lag + ProbeSteps(p, j, outcome), FinishSteps(p, i, outcome);
    RunConcat(s, lag, ProbeSteps(p, j, outcome));
    assert a[0] == StartPoll;
    NoStartIsSerial(Apply(s, StartPoll), a[1..]);
    NoStartIsSerial(Run(s, a), b);
  }

  /** A run from a new registry, looked at in two places. */
  ghost predicate Reads(services: seq<ServiceEntry>, now: nat, a: seq<Step>, b: seq<Step>) {
    CanRun(Init(services, now), a) && CanRun(Run(Init(services, now), a), b)
  }

  /** Such a run of the polling loop alone. */
  ghost predicate SerialReads(services: seq<ServiceEntry>, now: nat, a: seq<Step>, b: seq<Step>) {
    var s := Init(services, now);
    Reads(services, now, a, b) && SerialRun(s, a) && SerialRun(Run(s, a), b)
  }

  ghost predicate NotBack(s: State, steps: seq<Step>, i: nat)
    requires CanRun(s, steps)
  {
    i < |Snapshot(s)| && i < |Snapshot(Run(s, steps))| ==>
      Snapshot(s)[i].lastCheck <= Snapshot(Run(s, steps))[i].lastCheck
  }

  /** The polling loop never shows a LastCheck earlier than one it showed before, in any run,
      exactly when the services it polls have distinct names. */
  lemma SerialMonotoneIffDistinct(services: seq<ServiceEntry>)
    ensures DistinctNames(services) <==>
      forall now: nat, a: seq<Step>, b: seq<Step>, i: nat | SerialReads(services, now, a, b) && i < |services| ::
        NotBack(Run(Init(services, now), a), b, i)
  {
    if DistinctNames(services) {
      forall now: nat, a: seq<Step>, b: seq<Step>, i: nat | SerialReads(services, now, a, b) && i < |services|
        ensures NotBack(Run(Init(services, now), a), b, i)
      {
        SerialNeverBack(services, now, a, b, i);
      }
    } else {
      var i, j :| 0 <= i < j < |services| && services[i].name == services[j].name;
      var s := Init(services, 0);
      InitInv(services, 0);
      var a, b := SharedNamesBreakMonotonicity(s, i, j, 1);
      assert SerialReads(services, 0, a, b) && !NotBack(Run(s, a), b, i);
    }
  }

  lemma SerialNeverBack(services: seq<ServiceEntry>, now: nat, a: seq<Step>, b: seq<Step>, i: nat)
    requires DistinctNames(services) && SerialReads(services, now, a, b) && i < |services|
    ensures NotBack(Run(Init(services, now), a), b, i)
  {
    var s := Init(services, now);
    InitInv(services, now);
    RunKeepsInv(s, a);
    SerialRunKeeps(s, a);
    RunExtends(s, a);
    SerialLastCheckIsMonotone(Run(s, a), b, i);
  }

  /** Where polls may overlap there is no such guarantee for anybody: LastCheck is monotone in
      every run only on a platform without services. */
  lemma OverlapMonotoneIffEmpty(services: seq<ServiceEntry>)
    ensures services == [] <==>
      forall now: nat, a: seq<Step>, b: seq<Step>, i: nat | Reads(services, now, a, b) && i < |services| ::
        NotBack(Run(Init(services, now), a), b, i)
  {
    if services != [] {
      var s := Init(services, 0);
      InitInv(services, 0);
      var a, b := RegressionBoundIsTight(s, 0, 1);
      assert Reads(services, 0, a, b) && !NotBack(Run(s, a), b, 0);
    }
  }
}
