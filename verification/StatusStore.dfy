/** The status store on the heap: which objects a poll writes, and what a snapshot shares
    with the store. */
module StatusStore {
  import opened Platform
  import opened Aggregate
  import opened PollProtocol

  /** The map a decoded response carries.  Copying a status copies the reference. */
  class CheckTable {
    var entries: map<string, string>

    constructor (entries: map<string, string>)
      ensures this.entries == entries
    {
      this.entries := entries;
    }
  }

  class StatusRecord {
    var entry: ServiceEntry
    var status: string
    var version: string
    var checks: CheckTable?
    var lastCheck: nat
    var latency: nat
    var error: string

    ghost function Value(): ServiceStatus
      reads this, checks
    {
      ServiceStatus(entry, status, version, if checks == null then map[] else checks.entries,
        lastCheck, latency, error)
    }

    constructor (svc: ServiceEntry, lastCheck: nat, status: string)
      ensures Value() == ServiceStatus(svc, status, "", map[], lastCheck, 0, "") && checks == null
    {
      entry, this.status, version, checks := svc, status, "", null;
      this.lastCheck, latency, error := lastCheck, 0, "";
    }

    /** The struct copy behind a snapshot: every field, the map by reference. */
    constructor Copy(other: StatusRecord)
      ensures Value() == other.Value() && checks == other.checks
    {
      entry, status, version, checks := other.entry, other.status, other.version, other.checks;
      lastCheck, latency, error := other.lastCheck, other.latency, other.error;
    }
  }

  function Texts(ss: seq<ServiceStatus>): seq<string> {
    seq(|ss|, i requires 0 <= i < |ss| => ss[i].status)
  }

  /** What the stored texts say of the platform. */
  lemma SummaryOfStore(services: seq<ServiceEntry>, m: map<string, ServiceStatus>)
    requires forall i | 0 <= i < |services| :: services[i].name in m
    ensures var r := SummaryOf(Texts(Collect(services, m)));
      && r in {"unknown", "down", "degraded", "ok"} && (r == "unknown" <==> services == [])
      && (services != [] ==>
            && (r == "down" <==> forall i | 0 <= i < |services| :: m[services[i].name].status in {"down", "error"})
            && (r == "ok" <==>
                  forall i | 0 <= i < |services| :: m[services[i].name].status !in {"down", "error", "degraded"}))
  {
    var texts := Texts(Collect(services, m));
    CollectIsPointwise(services, m);
    SummaryByTexts(texts);
    assert forall i | 0 <= i < |services| :: texts[i] == m[services[i].name].status;
  }

  class Registry {
    var services: seq<ServiceEntry>
    var statuses: map<string, StatusRecord>

    ghost var Contents: map<string, ServiceStatus>  // what the store holds, as values
    ghost var Records: set<StatusRecord>  // the records installed so far
    ghost var Tables: set<CheckTable>  // and the tables they carry

    /** The record under a name says what the contents say. */
    ghost predicate Filed(name: string)
      reads this, Records, Tables
    {
      && name in statuses && name in Contents
      && statuses[name] in Records
      && (statuses[name].checks != null ==> statuses[name].checks in Tables)
      && statuses[name].Value() == Contents[name]
    }

    ghost predicate Sound()
      reads this, Records, Tables
    {
      statuses.Keys == Contents.Keys && forall n | n in statuses :: Filed(n)
    }

    /** And every registered service has a record. */
    ghost predicate Valid()
      reads this, Records, Tables
    {
      Sound() && forall i | 0 <= i < |services| :: services[i].name in Contents
    }

    constructor (services: seq<ServiceEntry>)
      ensures Valid() && this.services == services
      ensures Contents == InitialStatuses(services)
      ensures fresh(Records) && fresh(Tables)
    {
      this.services := services;
      statuses, Contents, Records, Tables := map[], map[], {}, {};
      new;
      for i := 0 to |services|
        invariant Sound() && this.services == services
        invariant fresh(Records) && Tables == {}
        invariant Contents == InitialStatuses(services[..i])
      {
        assert services[..i + 1][..i] == services[..i];
        var st := new StatusRecord(services[i], 0, "unknown");
        WriteBack(services[i], st);
      }
      assert services[..|services|] == services;
      InitialStatusesAreUnprobed(services);
      assert forall i | 0 <= i < |services| :: services[i] in services;
    }

    /** Fills a status field by field; touches nothing that already exists. */
    method Probe(svc: ServiceEntry, started: nat, latency: nat, outcome: ProbeOutcome) returns (st: StatusRecord)
      ensures fresh(st) && fresh({st.checks} - {null})
      ensures st.Value() == ProbeResult(svc, started, latency, outcome)
      ensures st.entry == svc && st.lastCheck == started
      ensures st.latency == if outcome.BuildFailed? then 0 else latency
      ensures match outcome
        case BuildFailed(m) => st.status == "error" && st.error == "build request: " + m
        case TransportFailed(m) => st.status == "down" && st.error == m
        case Undecodable(_, m) => st.status == "degraded" && st.error == "decode response: " + m
        case Decoded(code, h) => st.status == (if code >= 500 then "down" else h.status) && st.error == ""
      ensures match outcome
        case Decoded(_, h) => st.version == h.version && st.checks != null && st.checks.entries == h.checks
        case _ => st.version == "" && st.checks == null
    {
      st := new StatusRecord(svc, started, "");
      if outcome.BuildFailed? {
        st.status := "error";
        st.error := "build request: " + outcome.message;
        return;
      }
      st.latency := latency;
      match outcome
      case TransportFailed(m) =>
        st.status := "down";
        st.error := m;
      case Undecodable(_, m) =>
        st.status := "degraded";
        st.error := "decode response: " + m;
      case Decoded(code, h) =>
        st.status := h.status;
        st.version := h.version;
        var table := new CheckTable(h.checks);
        st.checks := table;
        if code >= 500 {
          st.status := "down";
        }
    }

    /** The critical section of one goroutine: installs a new object under the service's name. */
    method WriteBack(svc: ServiceEntry, st: StatusRecord)
      requires Sound()
      modifies this`statuses, this`Contents, this`Records, this`Tables
      ensures Sound()
      ensures statuses == old(statuses)[svc.name := st]
      ensures Contents == old(Contents)[svc.name := st.Value()]
      ensures Records == old(Records) + {st}
      ensures Tables == old(Tables) + (if st.checks == null then {} else {st.checks})
    {
      Records := Records + {st};
      if st.checks != null { Tables := Tables + {st.checks}; }
      Contents := Contents[svc.name := st.Value()];
      statuses := statuses[svc.name := st];
      forall n | n in statuses ensures Filed(n) {
        if n != svc.name { assert old(Filed(n)); }
      }
    }

    method CopyOf(name: string) returns (cp: StatusRecord)
      requires Valid() && name in statuses
      ensures fresh(cp)
      ensures cp.checks == statuses[name].checks && cp.Value() == Contents[name]
    {
      cp := new StatusRecord.Copy(statuses[name]);
    }

    /** Copies every stored status, in registration order.  The copies are new objects; only
        their check tables are shared with the store. */
    method Statuses() returns (out: seq<StatusRecord>)
      requires Valid()
      ensures |out| == |services| && fresh(out)
      ensures forall i, j | 0 <= i < j < |out| :: out[i] != out[j]
      ensures forall i | 0 <= i < |out| ::
        && services[i].name in statuses
        && out[i].checks == statuses[services[i].name].checks
        && out[i].Value() == Contents[services[i].name]
    {
      out := [];
      for i := 0 to |services|
        modifies {}
        invariant |out| == i && fresh(out)
        invariant forall j, k | 0 <= j < k < i :: out[j] != out[k]
        invariant forall j | 0 <= j < i ::
          && services[j].name in statuses
          && out[j].checks == statuses[services[j].name].checks
          && out[j].Value() == Contents[services[j].name]
      {
        if services[i].name in statuses {
          var cp := CopyOf(services[i].name);
          out := out + [cp];
        }
      }
    }

    /** Takes a snapshot and rates it. */
    method Summary() returns (r: string)
      requires Valid()
      ensures r == SummaryOf(Texts(Collect(services, Contents)))
      ensures forall i | 0 <= i < |services| :: services[i].name in Contents
      ensures r in {"unknown", "down", "degraded", "ok"} && (r == "unknown" <==> services == [])
      ensures services != [] ==>
        && (r == "down" <==> forall i | 0 <= i < |services| :: Contents[services[i].name].status in {"down", "error"})
        && (r == "ok" <==>
              forall i | 0 <= i < |services| :: Contents[services[i].name].status !in {"down", "error", "degraded"})
    {
      var snap := Statuses();
      ghost var texts := Texts(Collect(services, Contents));
      CollectIsPointwise(services, Contents);
      r := Rate(snap, texts);
      SummaryOfStore(services, Contents);
    }

    /** The counting loop behind Summary. */
    static method Rate(snap: seq<StatusRecord>, ghost texts: seq<string>) returns (r: string)
      requires |texts| == |snap| && forall i | 0 <= i < |snap| :: snap[i].status == texts[i]
      ensures r == SummaryOf(texts)
      ensures r == "down" <==> snap != [] && forall i | 0 <= i < |snap| :: texts[i] in {"down", "error"}
      ensures r == "ok" <==> snap != [] && forall i | 0 <= i < |snap| :: texts[i] !in {"down", "error", "degraded"}
    {
      SummaryByTexts(texts);
      if |snap| == 0 { return "unknown"; }
      var down, degraded := 0, 0;
      for i := 0 to |snap|
        invariant 0 <= down <= i && 0 <= degraded
        invariant down == i <==> forall j | 0 <= j < i :: IsDown(texts[j])
        invariant down > 0 || degraded > 0 <==> exists j | 0 <= j < i :: IsBad(texts[j])
      {
        match snap[i].status
        case "down" => down := down + 1;
        case "error" => down := down + 1;
        case "degraded" => degraded := degraded + 1;
        case _ =>
      }
      assert texts[0] in texts;
      if down == |snap| { return "down"; }
      if down > 0 || degraded > 0 { return "degraded"; }
      return "ok";
    }
  }

  // ---------- The goroutines of overlapping polls, on objects ----------

  type Place = (nat, nat)

  /** What the objects say: the store, the clock, the stamp of each goroutine that is probing,
      and the status each has yet to write. */
  datatype Picture = Picture(
    store: map<string, ServiceStatus>, clock: nat, stamps: map<Place, nat>, kept: map<Place, ServiceStatus>)

  ghost predicate Shows(v: Picture, s: State) {
    v.store == s.statuses && v.clock == s.now && forall p: nat, i: nat | Live(s, p, i) :: ShowsPhase(v, s, p, i)
  }

  ghost predicate ShowsPhase(v: Picture, s: State, p: nat, i: nat)
    requires Live(s, p, i)
  {
    match s.polls[p].phases[i]
    case Probing(since) => (p, i) in v.stamps && v.stamps[(p, i)] == since
    case Probed(st) => (p, i) in v.kept && v.kept[(p, i)] == st
    case _ => true
  }

  /** The goroutine that takes the step has in its variables what the step uses. */
  predicate Ready(v: Picture, services: seq<ServiceEntry>, step: Step) {
    && (step.EndProbe? ==> step.service < |services| && (step.poll, step.service) in v.stamps)
    && (step.WriteBack? ==> step.service < |services| && (step.poll, step.service) in v.kept)
  }

  /** What one step does to the picture. */
  function Redraw(v: Picture, services: seq<ServiceEntry>, step: Step): Picture
    requires Ready(v, services, step)
  {
    match step
    case Tick(d) => v.(clock := v.clock + d)
    case BeginProbe(p, i) => v.(stamps := v.stamps[(p, i) := v.clock])
    case EndProbe(p, i, latency, outcome) =>
      v.(kept := v.kept[(p, i) := ProbeResult(services[i], v.stamps[(p, i)], latency, outcome)])
    case WriteBack(p, i) =>
      v.(store := v.store[services[i].name := v.kept[(p, i)]], kept := v.kept - {(p, i)})
    case _ => v
  }

  lemma RedrawShows(v: Picture, s: State, step: Step)
    requires Shows(v, s) && Enabled(s, step)
    ensures Ready(v, s.services, step)
    ensures Shows(Redraw(v, s.services, step), Apply(s, step))
  {
    if step.EndProbe? || step.WriteBack? {
      assert ShowsPhase(v, s, step.poll, step.service);
    }
    var t, u := Apply(s, step), Redraw(v, s.services, step);
    forall p: nat, i: nat | Live(t, p, i) ensures ShowsPhase(u, t, p, i) {
      assert Live(s, p, i) ==> ShowsPhase(v, s, p, i);
    }
  }

  /** All goroutines of all polls, with what they hold in local variables. */
  class Goroutines {
    const reg: Registry
    var clock: nat
    var stamps: map<Place, nat>
    var held: map<Place, StatusRecord>

    ghost var Kept: map<Place, ServiceStatus>  // what the held objects say
    ghost var HeldRecords: set<StatusRecord>  // the objects held so far
    ghost var HeldTables: set<CheckTable>  // and the tables they carry

    ghost predicate Holds(k: Place)
      reads this, HeldRecords, HeldTables
    {
      && k in held && k in Kept
      && held[k] in HeldRecords
      && (held[k].checks != null ==> held[k].checks in HeldTables)
      && held[k].Value() == Kept[k]
    }

    ghost predicate Valid()
      reads this, HeldRecords, HeldTables, reg, reg.Records, reg.Tables
    {
      reg.Valid() && forall k | k in Kept :: Holds(k)
    }

    ghost function Now(): Picture
      reads this, reg
    {
      Picture(reg.Contents, clock, stamps, Kept)
    }

    /** The objects are in state s of the protocol. */
    ghost predicate In(s: State)
      reads this, reg
    {
      reg.services == s.services && Shows(Now(), s)
    }

    constructor (services: seq<ServiceEntry>, now: nat)
      ensures Valid() && In(Init(services, now))
      ensures fresh(reg) && fresh(reg.Records) && fresh(reg.Tables)
    {
      reg := new Registry(services);
      clock, stamps, held := now, map[], map[];
      Kept, HeldRecords, HeldTables := map[], {}, {};
    }

    method Advance(clock: nat, stamps: map<Place, nat>)
      requires Valid()
      modifies this`clock, this`stamps
      ensures Valid() && this.clock == clock && this.stamps == stamps
    {
      this.clock, this.stamps := clock, stamps;
      forall k | k in Kept ensures Holds(k) {
        assert old(Holds(k));
      }
    }

    method Hold(k: Place, st: StatusRecord)
      requires Valid()
      modifies this`held, this`Kept, this`HeldRecords, this`HeldTables
      ensures Valid() && Kept == old(Kept)[k := st.Value()]
    {
      HeldRecords := HeldRecords + {st};
      HeldTables := HeldTables + (if st.checks != null then {st.checks} else {});
      held, Kept := held[k := st], Kept[k := st.Value()];
      forall l | l in Kept ensures Holds(l) {
        if l != k { assert old(Holds(l)); }
      }
    }

    /** A goroutine's probe is over. */
    method End(k: Place, svc: ServiceEntry, latency: nat, outcome: ProbeOutcome)
      requires Valid() && k in stamps
      modifies this
      ensures Valid() && clock == old(clock) && stamps == old(stamps)
      ensures Kept == old(Kept)[k := ProbeResult(svc, stamps[k], latency, outcome)]
    {
      var st := reg.Probe(svc, stamps[k], latency, outcome);
      Hold(k, st);
    }

    method Drop(k: Place)
      requires Valid()
      modifies this`held, this`Kept
      ensures Valid() && Kept == old(Kept) - {k}
    {
      held, Kept := held - {k}, Kept - {k};
      forall l | l in Kept ensures Holds(l) {
        assert old(Holds(l));
      }
    }

    /** A goroutine has the lock. */
    method Publish(k: Place, svc: ServiceEntry)
      requires Valid() && k in Kept
      modifies this, reg`statuses, reg`Contents, reg`Records, reg`Tables
      ensures Valid() && clock == old(clock) && stamps == old(stamps)
      ensures reg.Contents == old(reg.Contents)[svc.name := old(Kept)[k]] && Kept == old(Kept) - {k}
    {
      assert Holds(k);
      reg.WriteBack(svc, held[k]);
      Drop(k);
    }

    /** One step of one goroutine, or of the clock. */
    method Do(step: Step)
      requires Valid() && Ready(Now(), reg.services, step)
      modifies this, reg`statuses, reg`Contents, reg`Records, reg`Tables
      ensures Valid() && Now() == Redraw(old(Now()), reg.services, step)
    {
      match step
      case EndProbe(p, i, latency, outcome) => End((p, i), reg.services[i], latency, outcome);
      case WriteBack(p, i) => Publish((p, i), reg.services[i]);
      case Tick(elapsed) => Advance(clock + elapsed, stamps);
      case BeginProbe(p, i) => Advance(clock, stamps[(p, i) := clock]);
      case _ =>
    }

    /** Any interleaving of any number of polls, from any state s. */
    method Interleave(ghost s: State, steps: seq<Step>)
      requires Valid() && In(s) && CanRun(s, steps)
      modifies this, reg`statuses, reg`Contents, reg`Records, reg`Tables
      ensures Valid() && In(Run(s, steps))
    {
      ghost var now := s;
      for k := 0 to |steps|
        invariant Valid() && In(now) && CanRun(now, steps[k..])
        invariant Run(s, steps) == Run(now, steps[k..])
      {
        assert steps[k..][1..] == steps[k + 1..];
        RedrawShows(Now(), now, steps[k]);
        Do(steps[k]);
        now := Apply(now, steps[k]);
      }
    }
  }

  /** A read through the objects shows the state they are in. */
  method Read(g: Goroutines, ghost s: State) returns (snap: seq<StatusRecord>)
    requires g.Valid() && g.In(s)
    ensures fresh(snap) && |snap| == |Snapshot(s)|
    ensures forall i | 0 <= i < |snap| :: snap[i].Value() == Snapshot(s)[i]
  {
    CollectIsPointwise(g.reg.services, g.reg.Contents);
    snap := g.reg.Statuses();
  }

  /** And a rating through the objects rates it. */
  method RateNow(g: Goroutines, ghost s: State) returns (r: string)
    requires g.Valid() && g.In(s)
    ensures r == SummaryOf(Texts(Snapshot(s)))
  {
    r := g.reg.Summary();
  }

  /** A snapshot is isolated from every later write: whatever any polls do afterwards, the
      objects handed out still show the state they were taken in. */
  method SnapshotThenRun(g: Goroutines, ghost s: State, steps: seq<Step>) returns (snap: seq<StatusRecord>)
    requires g.Valid() && g.In(s) && CanRun(s, steps)
    modifies g, g.reg`statuses, g.reg`Contents, g.reg`Records, g.reg`Tables
    ensures g.Valid() && g.In(Run(s, steps))
    ensures |snap| == |Snapshot(s)|
    ensures forall i | 0 <= i < |snap| :: snap[i].Value() == Snapshot(s)[i]
  {
    snap := Read(g, s);
    g.Interleave(s, steps);
  }

  // ---------- What a reader can reach through its copies ----------

  /** The store is isolated from its readers: whatever is written over a handed-out copy, the
      store and all it holds stay as they were. */
  method ScribbleOnCopy(reg: Registry, i: nat, v: ServiceStatus, table: CheckTable?)
    requires reg.Valid() && i < |reg.services|
    ensures reg.Valid() && reg.Contents == old(reg.Contents) && reg.statuses == old(reg.statuses)
  {
    var snap := reg.Statuses();
    var cp := snap[i];
    cp.entry, cp.status, cp.version, cp.checks := v.entry, v.status, v.version, table;
    cp.lastCheck, cp.latency, cp.error := v.lastCheck, v.latency, v.error;
    forall n | n in reg.statuses ensures reg.Filed(n) {
      assert old(reg.Filed(n));
    }
  }

  /** The copy is shallow, though: writing into a copy's check table writes into the store,
      into exactly the entries that carry that table. */
  method ScribbleOnTable(reg: Registry, i: nat, entries: map<string, string>)
    requires reg.Valid() && i < |reg.services|
    requires reg.services[i].name in reg.statuses && reg.statuses[reg.services[i].name].checks != null
    modifies reg.statuses[reg.services[i].name].checks
    ensures reg.services[i].name in reg.statuses && reg.statuses == old(reg.statuses)
    ensures forall n | n in reg.statuses ::
      reg.statuses[n].Value() ==
        if reg.statuses[n].checks == reg.statuses[reg.services[i].name].checks
        then old(reg.statuses[n].Value()).(checks := entries)
        else old(reg.statuses[n].Value())
  {
    var snap := reg.Statuses();
    snap[i].checks.entries := entries;
  }

  lemma ProbedTable(services: seq<ServiceEntry>, i: nat, body: HealthResponse)
    requires i < |services|
    ensures var init, steps := Init(services, 0), [StartPoll] + ProbeSteps(0, i, Decoded(200, body));
      && CanRun(init, steps) && services[i].name in Run(init, steps).statuses
      && Run(init, steps).statuses[services[i].name].checks == body.checks
  {
    var init, probe := Init(services, 0), ProbeSteps(0, i, Decoded(200, body));
    InitInv(services, 0);
    RunOne(init, StartPoll);
    ProbeRuns(Apply(init, StartPoll), 0, i, Decoded(200, body));
    RunConcat(init, [StartPoll], probe);
    var s := Run(init, [StartPoll] + probe);
    RunKeepsInv(init, [StartPoll] + probe);
    assert s.history == [Write(0, i, ProbeResult(services[i], 0, 0, Decoded(200, body)), 0)];
    StoreByName(s);
    assert LastWrite(s.services, s.history, services[i].name) == 0;
    assert services[i] in services;
  }

  /** And tables do get there: on every platform, one poll of a service that answers with
      checks puts one where `ScribbleOnTable` can reach it. */
  method ReachTable(services: seq<ServiceEntry>, i: nat, body: HealthResponse) returns (g: Goroutines)
    requires i < |services| && body.checks != map[]
    ensures g.Valid() && g.reg.services == services && services[i].name in g.reg.statuses
    ensures g.reg.statuses[services[i].name].checks != null
    ensures g.reg.statuses[services[i].name].checks.entries == body.checks
  {
    g := new Goroutines(services, 0);
    ProbedTable(services, i, body);
    g.Interleave(Init(services, 0), [StartPoll] + ProbeSteps(0, i, Decoded(200, body)));
    assert g.reg.Filed(services[i].name);
  }
}
