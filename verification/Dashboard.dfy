/** The dashboard's own endpoints: the two-read summary, the proxy's routing, and the whole
    path from a service's checks to the platform summary. */
module Dashboard {
  import opened Platform
  import opened Aggregate
  import opened PollProtocol
  import opened StatusStore
  import Health

  datatype SummaryResponse = SummaryResponse(
    status: string, services: nat, healthy: nat, degraded: nat, down: nat, updatedAt: nat)

  /** How many elements satisfy p. */
  function Count<T>(xs: seq<T>, p: T -> bool): nat {
    if xs == [] then 0
    else Count(xs[..|xs| - 1], p) + if p(xs[|xs| - 1]) then 1 else 0
  }

  predicate IsOk(s: string) { s == "ok" }

  predicate IsDegraded(s: string) { s == "degraded" }

  /** The counts call everything else down. */
  predicate IsNeither(s: string) { s != "ok" && s != "degraded" }

  /** The answer made of a first read `shown` and the rating of a second read. */
  function Respond(shown: seq<string>, platform: string, now: nat): SummaryResponse {
    SummaryResponse(platform, |shown|, Count(shown, IsOk), Count(shown, IsDegraded), Count(shown, IsNeither), now)
  }

  /** What the endpoint answers when it reads states s and, some steps later, t. */
  function Answer(s: State, t: State, now: nat): SummaryResponse {
    Respond(Texts(Snapshot(s)), SummaryOf(Texts(Snapshot(t))), now)
  }

  /** The counting loop behind the summary endpoint. */
  method Tabulate(snap: seq<StatusRecord>, ghost first: seq<ServiceStatus>, platform: string, now: nat)
    returns (resp: SummaryResponse)
    requires |first| == |snap| && forall i | 0 <= i < |snap| :: snap[i].Value() == first[i]
    ensures resp == Respond(Texts(first), platform, now)
  {
    var healthy, degraded, down := 0, 0, 0;
    ghost var shown := Texts(first);
    for i := 0 to |snap|
      invariant healthy == Count(shown[..i], IsOk)
      invariant degraded == Count(shown[..i], IsDegraded)
      invariant down == Count(shown[..i], IsNeither)
    {
      assert shown[..i + 1][..i] == shown[..i];
      assert snap[i].Value().status == shown[i];
      match snap[i].status
      case "ok" => healthy := healthy + 1;
      case "degraded" => degraded := degraded + 1;
      case _ => down := down + 1;
    }
    assert shown[..|snap|] == shown;
    return SummaryResponse(platform, |snap|, healthy, degraded, down, now);
  }

  /** The second read, and the answer made of both. */
  method RateAndTabulate(g: Goroutines, ghost t: State, snap: seq<StatusRecord>,
      ghost first: seq<ServiceStatus>, now: nat)
    returns (resp: SummaryResponse)
    requires g.Valid() && g.In(t)
    requires |snap| == |first| && forall i | 0 <= i < |snap| :: snap[i].Value() == first[i]
    ensures resp == Respond(Texts(first), SummaryOf(Texts(Snapshot(t))), now)
  {
    var platform := RateNow(g, t);
    resp := Tabulate(snap, first, platform, now);
  }

  /** Reads twice; any steps of any goroutines may fall between the reads. */
  method HandleSummary(g: Goroutines, ghost s: State, between: seq<Step>, now: nat) returns (resp: SummaryResponse)
    requires g.Valid() && g.In(s) && CanRun(s, between)
    modifies g, g.reg`statuses, g.reg`Contents, g.reg`Records, g.reg`Tables
    ensures g.Valid() && g.In(Run(s, between))
    ensures resp == Answer(s, Run(s, between), now)
  {
    var snap := SnapshotThenRun(g, s, between);
    resp := RateAndTabulate(g, Run(s, between), snap, Snapshot(s), now);
  }

  lemma {:induction false} CountsPartition(shown: seq<string>)
    ensures Count(shown, IsOk) + Count(shown, IsDegraded) + Count(shown, IsNeither) == |shown|
  {
    if shown != [] {
      CountsPartition(shown[..|shown| - 1]);
    }
  }

  lemma {:induction false} CountBounds(xs: seq<string>, p: string -> bool)
    ensures Count(xs, p) <= |xs|
    ensures Count(xs, p) == 0 <==> forall i | 0 <= i < |xs| :: !p(xs[i])
    ensures Count(xs, p) == |xs| <==> forall i | 0 <= i < |xs| :: p(xs[i])
  {
    if xs != [] {
      var front := xs[..|xs| - 1];
      CountBounds(front, p);
      assert forall i | 0 <= i < |front| :: front[i] == xs[i];
    }
  }

  lemma {:induction false} CountIsCardinality(xs: seq<string>, p: string -> bool)
    ensures Count(xs, p) == |set i | 0 <= i < |xs| && p(xs[i])|
  {
    var all := set i | 0 <= i < |xs| && p(xs[i]);
    if xs != [] {
      var last, front := |xs| - 1, xs[..|xs| - 1];
      CountIsCardinality(front, p);
      var before := set i | 0 <= i < |front| && p(front[i]);
      assert all == if p(xs[last]) then before + {last} else before;
    }
  }

  /** The services shown with a status that satisfies p. */
  function Showing(shown: seq<ServiceStatus>, p: string -> bool): set<int> {
    set i | 0 <= i < |shown| && p(shown[i].status)
  }

  lemma CountShowing(shown: seq<ServiceStatus>, p: string -> bool)
    ensures Count(Texts(shown), p) == |Showing(shown, p)|
  {
    var texts := Texts(shown);
    CountIsCardinality(texts, p);
    assert (set i | 0 <= i < |texts| && p(texts[i])) == Showing(shown, p);
  }

  /** Each counter is the number of services shown with that text by the first read; the rest
      of the answer is the number of services, the rating of the second read, and the time. */
  lemma AnswerCounts(s: State, t: State, now: nat)
    ensures var a, shown := Answer(s, t, now), Snapshot(s);
      && a.healthy == |set i | 0 <= i < |shown| && shown[i].status == "ok"|
      && a.degraded == |set i | 0 <= i < |shown| && shown[i].status == "degraded"|
      && a.down == |set i | 0 <= i < |shown| && shown[i].status !in {"ok", "degraded"}|
      && a.services == |shown| && a.updatedAt == now
      && a.status == SummaryOf(Texts(Snapshot(t)))
  {
    var shown := Snapshot(s);
    CountShowing(shown, IsOk);
    CountShowing(shown, IsDegraded);
    CountShowing(shown, IsNeither);
    ShowingTexts(shown);
  }

  lemma ShowingTexts(shown: seq<ServiceStatus>)
    ensures Showing(shown, IsOk) == set i | 0 <= i < |shown| && shown[i].status == "ok"
    ensures Showing(shown, IsDegraded) == set i | 0 <= i < |shown| && shown[i].status == "degraded"
    ensures Showing(shown, IsNeither) == set i | 0 <= i < |shown| && shown[i].status !in {"ok", "degraded"}
  {
  }

  lemma CountAmong(xs: seq<string>, p: string -> bool)
    ensures Count(xs, p) == 0 <==> forall x | x in xs :: !p(x)
    ensures Count(xs, p) == |xs| <==> forall x | x in xs :: p(x)
  {
    CountBounds(xs, p);
    assert forall i | 0 <= i < |xs| :: xs[i] in xs;
  }

  /** Under any steps between the two reads, the counts add up to the number of services and
      the status is unknown exactly when there are none. */
  lemma SummaryCounts(s: State, steps: seq<Step>, now: nat)
    requires Inv(s) && CanRun(s, steps)
    ensures var a := Answer(s, Run(s, steps), now);
      && a.healthy + a.degraded + a.down == a.services == |s.services|
      && (a.status == "unknown" <==> a.services == 0)
  {
    RunKeepsInv(s, steps);
    RunExtends(s, steps);
    SnapshotOfInv(s);
    SnapshotOfInv(Run(s, steps));
    CountsPartition(Texts(Snapshot(s)));
    SummaryMeaning(Texts(Snapshot(Run(s, steps))));
  }

  /** With no write between the reads the status and the counts agree, in these three ways. */
  lemma QuietSummaryAgrees(s: State, t: State, now: nat)
    requires Inv(s) && Inv(t) && t.services == s.services && t.history == s.history
    ensures var a := Answer(s, t, now);
      && (a.status == "down" ==> a.down == a.services)
      && (a.healthy == a.services > 0 ==> a.status == "ok")
      && (a.status == "ok" ==> a.degraded == 0)
  {
    var texts := Texts(Snapshot(s));
    assert Snapshot(t) == Snapshot(s);
    SummaryMeaning(texts);
    CountAmong(texts, IsOk);
    CountAmong(texts, IsDegraded);
    CountAmong(texts, IsNeither);
    if texts != [] { assert texts[0] in texts; }
  }

  /** They disagree in a fourth: the rating lets an unrecognised status pass, the counts call
      it down.  An ok platform counts services as down exactly when nothing is bad yet some
      status is not ok. */
  lemma OkWithServicesDown(s: State, t: State, now: nat)
    requires Inv(s) && Inv(t) && t.services == s.services && t.history == s.history
    ensures var a := Answer(s, t, now); var texts := Texts(Snapshot(s));
      a.status == "ok" && a.down > 0 <==> (forall x | x in texts :: !IsBad(x)) && (exists x | x in texts :: x != "ok")
  {
    var texts := Texts(Snapshot(s));
    assert Snapshot(t) == Snapshot(s);
    SummaryMeaning(texts);
    CountAmong(texts, IsNeither);
  }

  /** In particular, as long as nothing has been written the dashboard says ok and counts
      every service as down. */
  lemma UnpolledDashboard(s: State, t: State, now: nat)
    requires Inv(s) && Inv(t) && t.services == s.services != [] && s.history == t.history == []
    ensures var a := Answer(s, t, now); a.status == "ok" && a.down == a.services == |s.services|
  {
    var texts := Texts(Snapshot(s));
    assert Snapshot(t) == Snapshot(s);
    SnapshotOfInv(s);
    forall i | 0 <= i < |texts| ensures texts[i] == "unknown" {
      SnapshotShowsLatestWrite(s, i);
    }
    AllUnknown(texts);
  }

  lemma AllUnknown(texts: seq<string>)
    requires texts != [] && forall i | 0 <= i < |texts| :: texts[i] == "unknown"
    ensures SummaryOf(texts) == "ok" && Count(texts, IsNeither) == |texts|
  {
    SummaryMeaning(texts);
    CountBounds(texts, IsNeither);
  }

  /** With steps between the reads each of the three agreements can fail, and exactly so: the
      status says one thing of the second read and the counts another of the first. */
  lemma TornSummary(s: State, steps: seq<Step>, now: nat)
    requires Inv(s) && CanRun(s, steps)
    ensures var t := Run(s, steps); var a, first, second := Answer(s, t, now), Texts(Snapshot(s)), Texts(Snapshot(t));
      && (a.status == "down" && a.down < a.services <==>
            (forall x | x in second :: IsDown(x)) && (exists x | x in first :: x == "ok" || x == "degraded"))
      && (a.healthy == a.services > 0 && a.status != "ok" <==>
            (forall x | x in first :: x == "ok") && (exists x | x in second :: IsBad(x)))
      && (a.status == "ok" && a.degraded > 0 <==>
            (forall x | x in second :: !IsBad(x)) && "degraded" in first)
  {
    RunKeepsInv(s, steps);
    RunExtends(s, steps);
    SnapshotOfInv(s);
    SnapshotOfInv(Run(s, steps));
    TornCounts(Texts(Snapshot(s)), Texts(Snapshot(Run(s, steps))), now);
  }

  lemma TornCounts(first: seq<string>, second: seq<string>, now: nat)
    requires |first| == |second|
    ensures var a := Respond(first, SummaryOf(second), now);
      && (a.status == "down" && a.down < a.services <==>
            (forall x | x in second :: IsDown(x)) && (exists x | x in first :: x == "ok" || x == "degraded"))
      && (a.healthy == a.services > 0 && a.status != "ok" <==>
            (forall x | x in first :: x == "ok") && (exists x | x in second :: IsBad(x)))
      && (a.status == "ok" && a.degraded > 0 <==>
            (forall x | x in second :: !IsBad(x)) && "degraded" in first)
  {
    SummaryMeaning(second);
    CountAmong(first, IsOk);
    CountAmong(first, IsDegraded);
    CountAmong(first, IsNeither);
    CountsPartition(first);
  }

  /** So every service the answer counts as up while it calls the platform down was written,
      with a bad status, between the reads. */
  lemma TornByWrites(s: State, steps: seq<Step>, now: nat, i: nat)
    requires Inv(s) && CanRun(s, steps) && i < |s.services|
    requires Answer(s, Run(s, steps), now).status == "down"
    ensures |Snapshot(s)| == |s.services|
    ensures !IsNeither(Snapshot(s)[i].status) ==>
      var t := Run(s, steps);
      && t.services == s.services && Indexed(t.services, t.history) && |s.history| <= LatestWrite(t, i)
      && IsDown(t.history[LatestWrite(t, i)].status.status)
  {
    var t := Run(s, steps);
    ChangedMeansWritten(s, steps, i);
    SnapshotShowsLatestWrite(t, i);
    SummaryMeaning(Texts(Snapshot(t)));
    assert Texts(Snapshot(t))[i] in Texts(Snapshot(t));
  }

  lemma TornAnswer(first: seq<string>, second: seq<string>, now: nat)
    requires |first| == |second| > 0
    requires forall i | 0 <= i < |first| :: first[i] == "ok" && second[i] == "down"
    ensures var a := Respond(first, SummaryOf(second), now); a.status == "down" && a.healthy == a.services
  {
    CountBounds(first, IsOk);
    SummaryMeaning(second);
  }

  /** And it happens: on every platform with a service, from every reachable state, a poll can
      find everything well and the next, started by a request that is gone before its probes
      are, find everything down between the two reads.  The answer: down, all healthy. */
  lemma TornRun(s: State, now: nat) returns (before: seq<Step>, between: seq<Step>)
    requires Inv(s) && s.services != []
    ensures CanRun(s, before) && CanRun(Run(s, before), between)
    ensures var a := Answer(Run(s, before), Run(Run(s, before), between), now);
      a.status == "down" && a.healthy == a.services == |s.services|
  {
    var ok, cut := Decoded(200, HealthResponse("ok", "", "", map[])), TransportFailed("context canceled");
    var n := |s.services|;
    before := WholePoll(s, seq(n, _ => ok));
    var s1 := Run(s, before);
    between := WholePoll(s1, seq(n, _ => cut));
    var t := Run(s1, between);
    forall i | 0 <= i < n ensures Texts(Snapshot(s1))[i] == "ok" && Texts(Snapshot(t))[i] == "down" {
      assert Fetched(s1, |s.polls|, i, s.now, seq(n, _ => ok));
      assert Fetched(t, |s1.polls|, i, s1.now, seq(n, _ => cut));
    }
    TornAnswer(Texts(Snapshot(s1)), Texts(Snapshot(t)), now);
  }

  // ---------- From what a poll met to what the platform shows ----------

  /** Goroutine i of poll p met outcomes[i], and has written what it made of it. */
  ghost predicate Met(s: State, p: nat, outcomes: seq<ProbeOutcome>)
    requires p < |s.polls|
  {
    && |outcomes| == |s.services| == |s.polls[p].phases|
    && forall i | 0 <= i < |s.services| ::
      && s.polls[p].phases[i].Written? && s.polls[p].phases[i].slot < |s.history|
      && MetOne(s.services[i], ResultOf(s, p, i), outcomes[i])
  }

  predicate MetOne(svc: ServiceEntry, st: ServiceStatus, outcome: ProbeOutcome) {
    st == ProbeResult(svc, st.lastCheck, st.latency, outcome)
  }

  /** After an undisturbed poll each service shows what one goroutine for its name made of the
      outcome it met. */
  lemma ShownOutcome(s: State, p: nat, outcomes: seq<ProbeOutcome>, i: nat) returns (j: nat)
    requires Inv(s) && p < |s.polls| && s.polls[p].end.Some? && i < |s.services|
    requires Undisturbed(s, p) && Met(s, p, outcomes)
    ensures |Snapshot(s)| == |s.services|
    ensures j < |s.services| && s.services[j].name == s.services[i].name
    ensures DistinctNames(s.services) ==> j == i
    ensures var st, o := Snapshot(s)[i], outcomes[j];
      && (st.status == "ok" <==> o.Decoded? && o.code < 500 && o.body.status == "ok")
      && (st.status in {"down", "error"} <==>
            || o.BuildFailed? || o.TransportFailed?
            || (o.Decoded? && (o.code >= 500 || o.body.status in {"down", "error"})))
      && (st.status == "degraded" <==>
            o.Undecodable? || (o.Decoded? && o.code < 500 && o.body.status == "degraded"))
      && (if o.Decoded? then st.error == "" && st.version == o.body.version && st.checks == o.body.checks
          else (o.message != "" ==> st.error != "") && st.version == "" && st.checks == map[])
      && (o.BuildFailed? ==> st.latency == 0)
  {
    SnapshotShowsLatestWrite(s, i);
    LatestIsOwn(s, p, i);
    var w := s.history[LatestWrite(s, i)];
    j := w.service;
    assert ResultOf(s, p, j) == w.status && MetOne(s.services[j], w.status, outcomes[j]);
  }

  /** What takes a platform down, and what leaves it ok, if it happens to every probe. */
  predicate FoundDown(o: ProbeOutcome) {
    o.BuildFailed? || o.TransportFailed? || (o.Decoded? && (o.code >= 500 || o.body.status in {"down", "error"}))
  }

  predicate FoundFine(o: ProbeOutcome) {
    o.Decoded? && o.code < 500 && o.body.status !in {"down", "error", "degraded"}
  }

  lemma RatingByPlace(texts: seq<string>)
    requires texts != []
    ensures SummaryOf(texts) == "down" <==> forall i | 0 <= i < |texts| :: IsDown(texts[i])
    ensures SummaryOf(texts) == "ok" <==> forall i | 0 <= i < |texts| :: !IsBad(texts[i])
  {
    SummaryMeaning(texts);
    assert forall i | 0 <= i < |texts| :: texts[i] in texts;
  }

  /** A text as bad, and as good, as an outcome. */
  predicate Alike(text: string, o: ProbeOutcome) {
    (IsDown(text) <==> FoundDown(o)) && (!IsBad(text) <==> FoundFine(o))
  }

  predicate Mirrored(text: string, outcomes: seq<ProbeOutcome>) {
    exists j | 0 <= j < |outcomes| :: Alike(text, outcomes[j])
  }

  lemma RatingOfAlike(texts: seq<string>, outcomes: seq<ProbeOutcome>)
    requires |texts| == |outcomes| > 0 && forall i | 0 <= i < |texts| :: Alike(texts[i], outcomes[i])
    ensures SummaryOf(texts) == "down" <==> forall i | 0 <= i < |outcomes| :: FoundDown(outcomes[i])
    ensures SummaryOf(texts) == "ok" <==> forall i | 0 <= i < |outcomes| :: FoundFine(outcomes[i])
  {
    RatingByPlace(texts);
  }

  lemma RatingOfMirrored(texts: seq<string>, outcomes: seq<ProbeOutcome>)
    requires texts != [] && forall i | 0 <= i < |texts| :: Mirrored(texts[i], outcomes)
    ensures (forall i | 0 <= i < |outcomes| :: FoundDown(outcomes[i])) ==> SummaryOf(texts) == "down"
    ensures (forall i | 0 <= i < |outcomes| :: FoundFine(outcomes[i])) ==> SummaryOf(texts) == "ok"
    ensures (forall i | 0 <= i < |outcomes| :: outcomes[i].Undecodable?) ==> SummaryOf(texts) == "degraded"
  {
    RatingByPlace(texts);
    SummaryMeaning(texts);
    assert Mirrored(texts[0], outcomes);
  }

  lemma ShownFound(s: State, p: nat, outcomes: seq<ProbeOutcome>, i: nat) returns (j: nat)
    requires Inv(s) && p < |s.polls| && s.polls[p].end.Some? && i < |s.services|
    requires Undisturbed(s, p) && Met(s, p, outcomes)
    ensures |Snapshot(s)| == |s.services|
    ensures j < |s.services| && (DistinctNames(s.services) ==> j == i)
    ensures Alike(Snapshot(s)[i].status, outcomes[j])
  {
    j := ShownOutcome(s, p, outcomes, i);
  }

  /** After an undisturbed poll of a platform with services, shared names or not: requests
      that cannot be built, transport failures and answers from 500 on leave it down if all
      probes meet one of them, answers that cannot be decoded leave it degraded, and decoded
      answers below 500 that say nothing bad leave it ok. */
  lemma PlatformFollowsOutcomes(s: State, p: nat, outcomes: seq<ProbeOutcome>)
    requires Inv(s) && p < |s.polls| && s.polls[p].end.Some? && s.services != []
    requires Undisturbed(s, p) && Met(s, p, outcomes)
    ensures (forall i | 0 <= i < |outcomes| :: FoundDown(outcomes[i])) ==> SummaryOf(Texts(Snapshot(s))) == "down"
    ensures (forall i | 0 <= i < |outcomes| :: FoundFine(outcomes[i])) ==> SummaryOf(Texts(Snapshot(s))) == "ok"
    ensures (forall i | 0 <= i < |outcomes| :: outcomes[i].Undecodable?) ==>
      SummaryOf(Texts(Snapshot(s))) == "degraded"
  {
    SnapshotOfInv(s);
    var texts := Texts(Snapshot(s));
    forall i | 0 <= i < |texts| ensures Mirrored(texts[i], outcomes) {
      var j := ShownFound(s, p, outcomes, i);
    }
    RatingOfMirrored(texts, outcomes);
  }

  /** With distinct names this holds both ways. */
  lemma PlatformIffOutcomes(s: State, p: nat, outcomes: seq<ProbeOutcome>)
    requires Inv(s) && p < |s.polls| && s.polls[p].end.Some? && s.services != []
    requires DistinctNames(s.services) && Undisturbed(s, p) && Met(s, p, outcomes)
    ensures SummaryOf(Texts(Snapshot(s))) == "down" <==> forall i | 0 <= i < |outcomes| :: FoundDown(outcomes[i])
    ensures SummaryOf(Texts(Snapshot(s))) == "ok" <==> forall i | 0 <= i < |outcomes| :: FoundFine(outcomes[i])
  {
    SnapshotOfInv(s);
    var texts := Texts(Snapshot(s));
    forall i | 0 <= i < |texts| ensures Alike(texts[i], outcomes[i]) {
      var _ := ShownFound(s, p, outcomes, i);
    }
    RatingOfAlike(texts, outcomes);
  }

  /** Whatever outcomes there are to meet, from every reachable state with no poll under way
      an undisturbed poll can meet them. */
  lemma OutcomesCanBeMet(s: State, outcomes: seq<ProbeOutcome>) returns (steps: seq<Step>)
    requires Inv(s) && |outcomes| == |s.services|
    requires forall q | 0 <= q < |s.polls| :: s.polls[q].end.Some?
    ensures CanRun(s, steps)
    ensures var t, p := Run(s, steps), |s.polls|;
      && Inv(t) && t.services == s.services && p < |t.polls| && t.polls[p].end.Some?
      && Undisturbed(t, p) && Met(t, p, outcomes)
  {
    steps := WholePoll(s, outcomes);
    var t, p := Run(s, steps), |s.polls|;
    forall i | 0 <= i < |s.services|
      ensures t.polls[p].phases[i].Written? && t.polls[p].phases[i].slot < |t.history|
      ensures MetOne(s.services[i], ResultOf(t, p, i), outcomes[i])
    {
      assert Fetched(t, p, i, s.now, outcomes);
    }
  }

  /** So from every such state, on every platform with services, a poll that can build no
      request, reaches no service or gets only answers from 500 on leaves the platform down,
      and one that can decode no answer leaves it degraded. */
  lemma UniformPoll(s: State, o: ProbeOutcome) returns (steps: seq<Step>)
    requires Inv(s) && s.services != [] && forall q | 0 <= q < |s.polls| :: s.polls[q].end.Some?
    ensures CanRun(s, steps)
    ensures var summary := SummaryOf(Texts(Snapshot(Run(s, steps))));
      && (o.BuildFailed? || o.TransportFailed? || (o.Decoded? && o.code >= 500) ==> summary == "down")
      && (o.Undecodable? ==> summary == "degraded")
      && (o.Decoded? && o.code < 500 && o.body.status == "ok" ==> summary == "ok")
  {
    var outcomes := seq(|s.services|, _ => o);
    steps := OutcomesCanBeMet(s, outcomes);
    PlatformFollowsOutcomes(Run(s, steps), |s.polls|, outcomes);
    assert forall i | 0 <= i < |outcomes| :: outcomes[i] == o;
  }

  /** A poll started by request probes under the request's own context, which ends with the
      request.  If that fails all its probes and no other poll interferes, the platform is
      down, shared names or not, and whatever the services would have answered. */
  lemma UnreachedPollShowsDown(s: State, p: nat, outcomes: seq<ProbeOutcome>)
    requires Inv(s) && p < |s.polls| && s.polls[p].end.Some? && s.services != []
    requires Undisturbed(s, p) && Met(s, p, outcomes) && forall i | 0 <= i < |outcomes| :: outcomes[i].TransportFailed?
    ensures SummaryOf(Texts(Snapshot(s))) == "down"
  {
    assert forall i | 0 <= i < |outcomes| :: FoundDown(outcomes[i]);
    PlatformFollowsOutcomes(s, p, outcomes);
  }

  // ---------- From checks to the platform summary ----------

  /** A service whose health endpoint is a checker: the steps its checker took before the run
      that answered began, those after, up to its return, and when the prober asked. */
  datatype Backing = Backing(
    service: string, version: string, before: seq<Health.Step>, after: seq<Health.Step>, started: nat, latency: nat)

  ghost predicate Sound(b: Backing) { Health.Returns(b.service, b.version, b.before, b.after) }

  /** All checks of the run that answered passed. */
  ghost predicate Passed(b: Backing)
    requires Sound(b)
  {
    Health.ReturnedRun(b.service, b.version, b.before, b.after);
    Health.Healthy(Health.Outcomes(Health.RunOf(b.service, b.version, b.before, b.after)))
  }

  function Reported(svc: ServiceEntry, b: Backing): ServiceStatus
    requires Sound(b)
  {
    Health.StoredOf(svc, b.started, b.latency, b.service, b.version, b.before, b.after)
  }

  /** What the prober receives from it. */
  function Answered(b: Backing): ProbeOutcome
    requires Sound(b)
  {
    Health.Received(Health.Handle(Health.RunOf(b.service, b.version, b.before, b.after).report))
  }

  /** Poll p met service i's checker, and nothing else went wrong. */
  ghost predicate Backed(s: State, p: nat, backings: seq<Backing>)
    requires p < |s.polls|
  {
    && |backings| == |s.services| == |s.polls[p].phases|
    && forall i | 0 <= i < |s.services| ::
      && Sound(backings[i])
      && s.polls[p].phases[i].Written? && s.polls[p].phases[i].slot < |s.history|
      && ResultOf(s, p, i) == Reported(s.services[i], backings[i])
  }

  lemma BackedStatus(s: State, p: nat, backings: seq<Backing>, i: nat)
    requires Inv(s) && p < |s.polls| && s.polls[p].end.Some? && i < |s.services|
    requires DistinctNames(s.services) && Undisturbed(s, p) && Backed(s, p, backings)
    ensures |Snapshot(s)| == |s.services|
    ensures Snapshot(s)[i].status == if Passed(backings[i]) then "ok" else "down"
  {
    var b := backings[i];
    SnapshotIsPollResult(s, p, i);
    assert Sound(b) && ResultOf(s, p, i) == Reported(s.services[i], b);
    Health.ReturnedIsStored(s.services[i], b.started, b.latency, b.service, b.version, b.before, b.after);
  }

  lemma RatingOfBackings(texts: seq<string>, backings: seq<Backing>)
    requires |texts| == |backings| > 0
    requires forall i | 0 <= i < |texts| :: Sound(backings[i])
    requires forall i | 0 <= i < |texts| ::
      texts[i] == if Passed(backings[i]) then "ok" else "down"
    ensures SummaryOf(texts) ==
      if forall i | 0 <= i < |backings| :: !Passed(backings[i]) then "down"
      else if forall i | 0 <= i < |backings| :: Passed(backings[i]) then "ok"
      else "degraded"
  {
    SummaryMeaning(texts);
    assert forall i | 0 <= i < |texts| :: texts[i] in texts;
  }

  /** End to end, through any schedule of checks and probes: after an undisturbed poll of
      distinct services backed by checkers, the platform is down iff every service has a
      failing check, ok iff none has, and degraded otherwise. */
  lemma PlatformFollowsChecks(s: State, p: nat, backings: seq<Backing>)
    requires Inv(s) && p < |s.polls| && s.polls[p].end.Some? && s.services != []
    requires DistinctNames(s.services) && Undisturbed(s, p) && Backed(s, p, backings)
    ensures SummaryOf(Texts(Snapshot(s))) ==
      if forall i | 0 <= i < |backings| :: !Passed(backings[i]) then "down"
      else if forall i | 0 <= i < |backings| :: Passed(backings[i]) then "ok"
      else "degraded"
  {
    SnapshotOfInv(s);
    var texts := Texts(Snapshot(s));
    forall i | 0 <= i < |backings|
      ensures texts[i] == if Passed(backings[i]) then "ok" else "down"
    {
      BackedStatus(s, p, backings, i);
    }
    RatingOfBackings(texts, backings);
  }

  /** And such a poll can run, whatever the checkers did before they were asked. */
  lemma BackingsCanBeMet(s: State, backings: seq<Backing>) returns (steps: seq<Step>)
    requires Inv(s) && |backings| == |s.services|
    requires forall q | 0 <= q < |s.polls| :: s.polls[q].end.Some?
    requires forall i | 0 <= i < |backings| ::
      Sound(backings[i]) && backings[i].started == s.now && backings[i].latency == 0
    ensures CanRun(s, steps)
    ensures var t, p := Run(s, steps), |s.polls|;
      && Inv(t) && t.services == s.services && p < |t.polls| && t.polls[p].end.Some?
      && Undisturbed(t, p) && Backed(t, p, backings)
  {
    var outcomes := seq(|backings|, i requires 0 <= i < |backings| => Answered(backings[i]));
    steps := WholePoll(s, outcomes);
    var t, p := Run(s, steps), |s.polls|;
    forall i | 0 <= i < |s.services|
      ensures t.polls[p].phases[i].Written? && t.polls[p].phases[i].slot < |t.history|
      ensures ResultOf(t, p, i) == Reported(s.services[i], backings[i])
    {
      assert Fetched(t, p, i, s.now, outcomes);
    }
  }

  // ---------- The proxy's routing ----------

  datatype Route =
    | MissingName
    | UnknownService(name: string)
    | InvalidURL(target: string)
    | Forward(target: string, rest: string)

  function TrimPrefix(s: string, prefix: string): string {
    if prefix <= s then s[|prefix|..] else s
  }

  method IndexByte(s: string, c: char) returns (i: int)
    ensures -1 <= i < |s|
    ensures i == -1 ==> c !in s
    ensures i >= 0 ==> s[i] == c && c !in s[..i]
  {
    for k := 0 to |s|
      invariant c !in s[..k]
    {
      if s[k] == c { return k; }
    }
    return -1;
  }

  /** The URL of the first service of that name, or the empty string. */
  function Lookup(services: seq<ServiceEntry>, name: string): string {
    if services == [] then ""
    else if services[0].name == name then services[0].url
    else Lookup(services[1..], name)
  }

  /** Splits the path, past its prefix, at the first slash, and loses nothing of it. */
  method SplitPath(path: string) returns (found: bool, name: string, rest: string)
    ensures found <==> '/' in TrimPrefix(path, "/proxy/")
    ensures found ==> '/' !in name && rest != "" && rest[0] == '/'
    ensures found ==> TrimPrefix(path, "/proxy/") == name + rest
    ensures found && "/proxy/" <= path ==> path == "/proxy/" + (name + rest)
    ensures found && !("/proxy/" <= path) ==> path == name + rest
  {
    var trimmed := TrimPrefix(path, "/proxy/");
    var slash := IndexByte(trimmed, '/');
    if slash < 0 { return false, "", ""; }
    assert trimmed == trimmed[..slash] + trimmed[slash..];
    return true, trimmed[..slash], trimmed[slash..];
  }

  /** Where a request for a service goes; `parses` says which URLs the library accepts. */
  function Destination(services: seq<ServiceEntry>, name: string, rest: string, parses: string -> bool): Route {
    var target := Lookup(services, name);
    if target == "" then UnknownService(name)
    else if !parses(target) then InvalidURL(target)
    else Forward(target, rest)
  }

  /** Service i is the first registered of its name. */
  predicate IsFirst(services: seq<ServiceEntry>, name: string, i: nat)
    requires i < |services|
  {
    services[i].name == name && forall j | 0 <= j < i :: services[j].name != name
  }

  lemma {:induction false} LookupIsFirst(services: seq<ServiceEntry>, name: string)
    ensures forall i | 0 <= i < |services| && IsFirst(services, name, i) :: Lookup(services, name) == services[i].url
    ensures (forall i | 0 <= i < |services| :: services[i].name != name) ==> Lookup(services, name) == ""
  {
    if services != [] {
      LookupIsFirst(services[1..], name);
      forall i | 0 <= i < |services| && IsFirst(services, name, i) ensures Lookup(services, name) == services[i].url {
        if i > 0 {
          assert services[0].name != name;
          assert IsFirst(services[1..], name, i - 1);
        }
      }
    }
  }

  /** The first service of the name decides, shared names or not: no such service, or one
      without a URL, is unknown; a URL that parses gets the rest of the path. */
  lemma DestinationIsFirstMatch(services: seq<ServiceEntry>, name: string, rest: string, parses: string -> bool)
    ensures (forall i | 0 <= i < |services| :: services[i].name != name) ==>
      Destination(services, name, rest, parses) == UnknownService(name)
    ensures forall i | 0 <= i < |services| && IsFirst(services, name, i) ::
      var url, r := services[i].url, Destination(services, name, rest, parses);
      && (url == "" ==> r == UnknownService(name))
      && (url != "" && parses(url) ==> r == Forward(url, rest))
      && (url != "" && !parses(url) ==> r == InvalidURL(url))
  {
    LookupIsFirst(services, name);
  }

  /** Takes the first registered service of the name in the path; a service without a URL
      counts as unknown. */
  method RouteProxy(services: seq<ServiceEntry>, path: string, parses: string -> bool) returns (r: Route)
    ensures r.MissingName? <==> '/' !in TrimPrefix(path, "/proxy/")
    ensures !r.MissingName? ==> exists name, rest ::
      && TrimPrefix(path, "/proxy/") == name + rest && '/' !in name && rest != "" && rest[0] == '/'
      && r == Destination(services, name, rest, parses)
  {
    var found, name, rest := SplitPath(path);
    if !found { return MissingName; }
    var target := "";
    for i := 0 to |services|
      invariant target == "" && Lookup(services, name) == Lookup(services[i..], name)
    {
      if services[i].name == name {
        target := services[i].url;
        break;
      }
    }
    if target == "" { return UnknownService(name); }
    if !parses(target) { return InvalidURL(target); }
    return Forward(target, rest);
  }

  lemma {:induction false} LookupDistinct(services: seq<ServiceEntry>, i: nat)
    requires DistinctNames(services) && i < |services|
    ensures Lookup(services, services[i].name) == services[i].url
  {
    if i > 0 {
      LookupDistinct(services[1..], i - 1);
    }
  }

  /** With distinct names the proxy forwards to the service the status page shows. */
  lemma ProxyAgreesWithStatusPage(s: State, i: nat)
    requires Inv(s) && DistinctNames(s.services) && i < |s.services|
    ensures |Snapshot(s)| == |s.services|
    ensures Lookup(s.services, s.services[i].name) == Snapshot(s)[i].entry.url
  {
    SnapshotOfInv(s);
    LookupDistinct(s.services, i);
  }
}
