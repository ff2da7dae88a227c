/** Health checks: concurrent fan-in of named checks into one report, its HTTP answer, and
    what a probing dashboard stores for it. */
module Health {
  import opened Platform

  datatype Report = Report(status: string, service: string, version: string, checks: map<string, string>)

  /** One goroutine reaching the report's mutex: which check, and its error if it failed. */
  datatype Completion = Completion(index: nat, failure: Option<string>)

  function Text(failure: Option<string>): string {
    match failure
    case None => "ok"
    case Some(err) => "error: " + err
  }

  function EmptyReport(service: string, version: string): Report {
    Report("ok", service, version, map[])
  }

  /** The critical section of one check. */
  function Record(names: seq<string>, r: Report, c: Completion): Report
    requires c.index < |names|
  {
    var text := Text(c.failure);
    Report(if text != "ok" then "degraded" else r.status, r.service, r.version, r.checks[names[c.index] := text])
  }

  predicate InRange(names: seq<string>, done: seq<Completion>) {
    forall k | 0 <= k < |done| :: done[k].index < |names|
  }

  /** The report after the checks in `done` have had the mutex, in that order. */
  function Fold(names: seq<string>, r: Report, done: seq<Completion>): Report
    requires InRange(names, done)
  {
    if done == [] then r else Record(names, Fold(names, r, done[..|done| - 1]), done[|done| - 1])
  }

  predicate Distinct(names: seq<string>) {
    forall i, j | 0 <= i < j < |names| :: names[i] != names[j]
  }

  ghost predicate Ran(done: seq<Completion>, i: nat) {
    exists k :: 0 <= k < |done| && done[k].index == i
  }

  /** `done` lets every check through the mutex exactly once, each with its own outcome. */
  ghost predicate Schedules(outcomes: seq<Option<string>>, done: seq<Completion>) {
    && (forall k | 0 <= k < |done| ::
          done[k].index < |outcomes| && done[k].failure == outcomes[done[k].index])
    && (forall j, k | 0 <= j < k < |done| :: done[j].index != done[k].index)
    && (forall i | 0 <= i < |outcomes| :: Ran(done, i))
  }

  /** The checks one after the other, in registration order. */
  function Sequential(outcomes: seq<Option<string>>): seq<Completion> {
    seq(|outcomes|, i requires 0 <= i < |outcomes| => Completion(i, outcomes[i]))
  }

  predicate Healthy(outcomes: seq<Option<string>>) {
    forall i | 0 <= i < |outcomes| :: outcomes[i].None?
  }

  lemma {:induction false} FoldStatus(names: seq<string>, service: string, version: string, done: seq<Completion>)
    requires InRange(names, done)
    ensures var r := Fold(names, EmptyReport(service, version), done);
      && r.service == service && r.version == version
      && r.status == (if exists k | 0 <= k < |done| :: done[k].failure.Some? then "degraded" else "ok")
  {
    if done != [] {
      var front, last := done[..|done| - 1], done[|done| - 1];
      FoldStatus(names, service, version, front);
      assert done == front + [last];
      assert Text(last.failure) == "ok" <==> last.failure.None?;
      assert forall k | 0 <= k < |front| :: done[k] == front[k];
    }
  }

  /** The last completion of a check of that name, or -1. */
  function LastOf(names: seq<string>, done: seq<Completion>, name: string): (k: int)
    requires InRange(names, done)
    ensures -1 <= k < |done|
    ensures k >= 0 ==> names[done[k].index] == name
    ensures forall j | k < j < |done| :: names[done[j].index] != name
  {
    if done == [] then -1
    else if names[done[|done| - 1].index] == name then |done| - 1
    else LastOf(names, done[..|done| - 1], name)
  }

  /** The entry under a name is the text of the last check of that name to finish. */
  lemma {:induction false} FoldEntry(
    names: seq<string>, service: string, version: string, done: seq<Completion>, name: string)
    requires InRange(names, done)
    ensures var k, checks := LastOf(names, done, name), Fold(names, EmptyReport(service, version), done).checks;
      (name in checks <==> k >= 0) && (k >= 0 ==> checks[name] == Text(done[k].failure))
  {
    if done != [] {
      FoldEntry(names, service, version, done[..|done| - 1], name);
    }
  }

  /** Whatever the completion order, and even if names collide, the report is degraded
      exactly when some check failed. */
  lemma StatusIsConfluent(
    names: seq<string>, service: string, version: string, outcomes: seq<Option<string>>, done: seq<Completion>)
    requires |names| == |outcomes| && Schedules(outcomes, done)
    ensures Fold(names, EmptyReport(service, version), done).status == (if Healthy(outcomes) then "ok" else "degraded")
  {
    FoldStatus(names, service, version, done);
    if i :| 0 <= i < |outcomes| && outcomes[i].Some? {
      assert Ran(done, i);
      var k :| 0 <= k < |done| && done[k].index == i;
      assert done[k].failure.Some?;
    }
  }

  /** The entries of a finished report: exactly the registered names, each with the text of
      the last check of that name to finish, so with distinct names each with its own. */
  lemma ReportEntries(
    names: seq<string>, service: string, version: string, outcomes: seq<Option<string>>, done: seq<Completion>)
    requires |names| == |outcomes| && Schedules(outcomes, done)
    ensures var checks := Fold(names, EmptyReport(service, version), done).checks;
      forall n :: n in checks <==> n in names
    ensures forall n | n in names :: LastOf(names, done, n) >= 0
    ensures var checks := Fold(names, EmptyReport(service, version), done).checks;
      forall n | n in checks ::
        var o := outcomes[done[LastOf(names, done, n)].index];
        checks[n] == if o.None? then "ok" else "error: " + o.value
    ensures Distinct(names) ==> forall i | 0 <= i < |names| :: done[LastOf(names, done, names[i])].index == i
  {
    var checks := Fold(names, EmptyReport(service, version), done).checks;
    forall n
      ensures n in checks <==> n in names
      ensures n in names ==> LastOf(names, done, n) >= 0
      ensures n in checks ==> checks[n] == Text(outcomes[done[LastOf(names, done, n)].index])
    {
      FoldEntry(names, service, version, done, n);
      if i :| 0 <= i < |names| && names[i] == n {
        assert Ran(done, i);
      }
    }
  }

  lemma DistinctEntries(
    names: seq<string>, service: string, version: string, outcomes: seq<Option<string>>, done: seq<Completion>)
    requires |names| == |outcomes| && Schedules(outcomes, done) && Distinct(names)
    ensures var checks := Fold(names, EmptyReport(service, version), done).checks;
      && (forall n :: n in checks <==> n in names)
      && (forall i | 0 <= i < |names| :: checks[names[i]] == Text(outcomes[i]))
  {
    ReportEntries(names, service, version, outcomes, done);
  }

  lemma SameMaps(names: seq<string>, outcomes: seq<Option<string>>, a: map<string, string>, b: map<string, string>)
    requires |names| == |outcomes|
    requires (forall n :: n in a <==> n in names) && (forall n :: n in b <==> n in names)
    requires forall i | 0 <= i < |names| :: a[names[i]] == b[names[i]] == Text(outcomes[i])
    ensures a == b
  {
    forall n | n in names ensures a[n] == b[n] {
      var i :| 0 <= i < |names| && names[i] == n;
    }
  }

  /** With distinct names every completion order gives the report of running the checks in turn. */
  lemma ReportIsConfluent(
    names: seq<string>, service: string, version: string, outcomes: seq<Option<string>>, done: seq<Completion>)
    requires |names| == |outcomes| && Schedules(outcomes, done) && Distinct(names)
    ensures InRange(names, Sequential(outcomes))
    ensures Fold(names, EmptyReport(service, version), done)
         == Fold(names, EmptyReport(service, version), Sequential(outcomes))
  {
    var turn := Sequential(outcomes);
    SequentialSchedules(outcomes);
    StatusIsConfluent(names, service, version, outcomes, done);
    StatusIsConfluent(names, service, version, outcomes, turn);
    FoldStatus(names, service, version, done);
    FoldStatus(names, service, version, turn);
    DistinctEntries(names, service, version, outcomes, done);
    DistinctEntries(names, service, version, outcomes, turn);
    var a := Fold(names, EmptyReport(service, version), done).checks;
    var b := Fold(names, EmptyReport(service, version), turn).checks;
    SameMaps(names, outcomes, a, b);
  }

  lemma SequentialSchedules(outcomes: seq<Option<string>>)
    ensures Schedules(outcomes, Sequential(outcomes))
  {
    var turn := Sequential(outcomes);
    forall i | 0 <= i < |outcomes| ensures Ran(turn, i) {
      assert turn[i].index == i;
    }
  }

  // ---------- The checker, with registrations and runs interleaved ----------

  datatype Phase = Working | Done(failure: Option<string>, slot: nat)

  datatype CheckRun = CheckRun(
    names: seq<string>, phases: seq<Phase>, done: seq<Completion>, report: Report, returned: bool)

  datatype CheckerState = CheckerState(service: string, version: string, checks: seq<string>, runs: seq<CheckRun>)

  datatype Step =
    | Add(name: string)
    | Begin
    | Complete(run: nat, index: nat, failure: Option<string>)
    | Return(run: nat)

  predicate AllDone(r: CheckRun) {
    forall i | 0 <= i < |r.phases| :: r.phases[i].Done?
  }

  predicate Enabled(s: CheckerState, step: Step) {
    match step
    case Add(_) => true
    case Begin => true
    case Complete(r, i, _) =>
      r < |s.runs| && i < |s.runs[r].phases| && i < |s.runs[r].names| && s.runs[r].phases[i].Working?
    case Return(r) => r < |s.runs| && AllDone(s.runs[r])
  }

  function Apply(s: CheckerState, step: Step): CheckerState
    requires Enabled(s, step)
  {
    match step
    case Add(name) => s.(checks := s.checks + [name])
    case Begin =>
      s.(runs := s.runs +
        [CheckRun(s.checks, seq(|s.checks|, _ => Working), [], EmptyReport(s.service, s.version), false)])
    case Complete(r, i, failure) =>
      var run := s.runs[r];
      s.(runs := s.runs[r := run.(
        phases := run.phases[i := Done(failure, |run.done|)],
        done := run.done + [Completion(i, failure)],
        report := Record(run.names, run.report, Completion(i, failure)))])
    case Return(r) => s.(runs := s.runs[r := s.runs[r].(returned := true)])
  }

  predicate CanRun(s: CheckerState, steps: seq<Step>)
    decreases steps
  {
    steps == [] || (Enabled(s, steps[0]) && CanRun(Apply(s, steps[0]), steps[1..]))
  }

  function Run(s: CheckerState, steps: seq<Step>): CheckerState
    requires CanRun(s, steps)
    decreases steps
  {
    if steps == [] then s else Run(Apply(s, steps[0]), steps[1..])
  }

  /** Phases and completions tell the same story. */
  ghost predicate Slotted(phases: seq<Phase>, done: seq<Completion>) {
    && (forall k | 0 <= k < |done| ::
          done[k].index < |phases| && phases[done[k].index] == Done(done[k].failure, k))
    && (forall i | 0 <= i < |phases| && phases[i].Done? ::
          phases[i].slot < |done| && done[phases[i].slot].index == i)
  }

  ghost predicate RunInv(s: CheckerState, r: CheckRun) {
    && r.names <= s.checks && |r.phases| == |r.names|
    && Slotted(r.phases, r.done)
    && r.report == Fold(r.names, EmptyReport(s.service, s.version), r.done)
    && (r.returned ==> AllDone(r))
  }

  ghost predicate Inv(s: CheckerState) {
    forall r | 0 <= r < |s.runs| :: RunInv(s, s.runs[r])
  }

  lemma CompleteKeepsSlots(phases: seq<Phase>, done: seq<Completion>, i: nat, failure: Option<string>)
    requires Slotted(phases, done) && i < |phases| && phases[i].Working?
    ensures Slotted(phases[i := Done(failure, |done|)], done + [Completion(i, failure)])
  {
  }

  lemma CompleteKeepsInv(s: CheckerState, r: nat, i: nat, failure: Option<string>)
    requires r < |s.runs| && RunInv(s, s.runs[r]) && Enabled(s, Complete(r, i, failure))
    ensures RunInv(s, Apply(s, Complete(r, i, failure)).runs[r])
  {
    var run := s.runs[r];
    CompleteKeepsSlots(run.phases, run.done, i, failure);
    assert (run.done + [Completion(i, failure)])[..|run.done|] == run.done;
  }

  lemma StepKeepsInv(s: CheckerState, step: Step)
    requires Inv(s) && Enabled(s, step)
    ensures Inv(Apply(s, step))
  {
    var t := Apply(s, step);
    forall r | 0 <= r < |t.runs| ensures RunInv(t, t.runs[r]) {
      if r < |s.runs| {
        assert RunInv(s, s.runs[r]);
        if step.Complete? && step.run == r {
          CompleteKeepsInv(s, r, step.index, step.failure);
        }
      }
    }
  }

  lemma {:induction false} RunKeepsInv(s: CheckerState, steps: seq<Step>)
    requires Inv(s) && CanRun(s, steps)
    ensures Inv(Run(s, steps))
    decreases steps
  {
    if steps != [] {
      StepKeepsInv(s, steps[0]);
      RunKeepsInv(Apply(s, steps[0]), steps[1..]);
    }
  }

  /** Registrations that come later do not reach a run already under way. */
  lemma {:induction false} RunKeepsItsChecks(s: CheckerState, steps: seq<Step>, r: nat)
    requires CanRun(s, steps) && r < |s.runs|
    ensures r < |Run(s, steps).runs|
    ensures Run(s, steps).runs[r].names == s.runs[r].names
    decreases steps
  {
    if steps != [] {
      RunKeepsItsChecks(Apply(s, steps[0]), steps[1..], r);
    }
  }

  lemma {:induction false} RunKeepsName(s: CheckerState, steps: seq<Step>)
    requires CanRun(s, steps)
    ensures Run(s, steps).service == s.service && Run(s, steps).version == s.version
    decreases steps
  {
    if steps != [] {
      RunKeepsName(Apply(s, steps[0]), steps[1..]);
    }
  }

  function Outcomes(r: CheckRun): (outcomes: seq<Option<string>>)
    requires AllDone(r)
    ensures |outcomes| == |r.phases|
  {
    seq(|r.phases|, i requires 0 <= i < |r.phases| => r.phases[i].failure)
  }

  lemma FinishedRunSchedules(s: CheckerState, r: CheckRun)
    requires RunInv(s, r) && AllDone(r)
    ensures Schedules(Outcomes(r), r.done)
  {
    forall i | 0 <= i < |r.phases| ensures Ran(r.done, i) {
      assert r.done[r.phases[i].slot].index == i;
    }
  }

  function NewChecker(service: string, version: string): CheckerState {
    CheckerState(service, version, [], [])
  }

  /** A run that began after the steps `before` and is over by the end of `after`. */
  ghost predicate Returns(service: string, version: string, before: seq<Step>, after: seq<Step>) {
    && CanRun(NewChecker(service, version), before)
    && var s := Run(NewChecker(service, version), before);
    && CanRun(Apply(s, Begin), after)
    && |s.runs| < |Run(Apply(s, Begin), after).runs|
    && Run(Apply(s, Begin), after).runs[|s.runs|].returned
  }

  /** The checks registered when it began. */
  function ChecksThen(service: string, version: string, before: seq<Step>): seq<string>
    requires CanRun(NewChecker(service, version), before)
  {
    Run(NewChecker(service, version), before).checks
  }

  function RunOf(service: string, version: string, before: seq<Step>, after: seq<Step>): CheckRun
    requires Returns(service, version, before, after)
  {
    var s := Run(NewChecker(service, version), before);
    Run(Apply(s, Begin), after).runs[|s.runs|]
  }

  lemma ReturnedRun(service: string, version: string, before: seq<Step>, after: seq<Step>)
    requires Returns(service, version, before, after)
    ensures var r := RunOf(service, version, before, after);
      && AllDone(r) && r.names == ChecksThen(service, version, before) && |Outcomes(r)| == |r.names|
      && Schedules(Outcomes(r), r.done)
      && r.report == Fold(r.names, EmptyReport(service, version), r.done)
  {
    var s := Run(NewChecker(service, version), before);
    RunKeepsInv(NewChecker(service, version), before);
    RunKeepsName(NewChecker(service, version), before);
    var t := Run(Apply(s, Begin), after);
    StepKeepsInv(s, Begin);
    RunKeepsInv(Apply(s, Begin), after);
    RunKeepsName(Apply(s, Begin), after);
    RunKeepsItsChecks(Apply(s, Begin), after, |s.runs|);
    var r := t.runs[|s.runs|];
    assert RunInv(t, r);
    FinishedRunSchedules(t, r);
  }

  /** Through any interleaving with other runs and registrations a returned report is about
      exactly the checks registered when its run began, it is degraded iff one of them failed,
      and with distinct names it is the report of running them in turn. */
  lemma ReturnedReport(service: string, version: string, before: seq<Step>, after: seq<Step>)
    requires Returns(service, version, before, after)
    ensures var checks, r := ChecksThen(service, version, before), RunOf(service, version, before, after);
      && AllDone(r) && |Outcomes(r)| == |checks|
      && r.report.status == (if Healthy(Outcomes(r)) then "ok" else "degraded")
      && InRange(checks, Sequential(Outcomes(r)))
      && (Distinct(checks) ==>
            r.report == Fold(checks, EmptyReport(service, version), Sequential(Outcomes(r))))
  {
    ReturnedRun(service, version, before, after);
    var r := RunOf(service, version, before, after);
    StatusIsConfluent(r.names, service, version, Outcomes(r), r.done);
    if Distinct(r.names) {
      ReportIsConfluent(r.names, service, version, Outcomes(r), r.done);
    }
  }

  // ---------- Every schedule is some run ----------

  lemma {:induction false} RunConcat(s: CheckerState, a: seq<Step>, b: seq<Step>)
    requires CanRun(s, a) && CanRun(Run(s, a), b)
    ensures CanRun(s, a + b) && Run(s, a + b) == Run(Run(s, a), b)
    decreases a
  {
    if a == [] {
      assert a + b == b;
    } else {
      assert (a + b)[1..] == a[1..] + b;
      RunConcat(Apply(s, a[0]), a[1..], b);
    }
  }

  lemma RunOne(s: CheckerState, step: Step)
    requires Enabled(s, step)
    ensures CanRun(s, [step]) && Run(s, [step]) == Apply(s, step)
  {
    assert [step][1..] == [];
    assert CanRun(Apply(s, step), []) && Run(Apply(s, step), []) == Apply(s, step);
  }

  function Registrations(names: seq<string>): seq<Step> {
    if names == [] then [] else [Add(names[0])] + Registrations(names[1..])
  }

  lemma {:induction false} RegistrationsRun(s: CheckerState, names: seq<string>)
    ensures CanRun(s, Registrations(names))
    ensures Run(s, Registrations(names)) == s.(checks := s.checks + names)
    decreases names
  {
    if names != [] {
      RunOne(s, Add(names[0]));
      RegistrationsRun(Apply(s, Add(names[0])), names[1..]);
      RunConcat(s, [Add(names[0])], Registrations(names[1..]));
      assert (s.checks + [names[0]]) + names[1..] == s.checks + names;
    } else {
      assert s.checks + names == s.checks;
    }
  }

  function CompleteAll(r: nat, done: seq<Completion>): seq<Step> {
    if done == [] then [] else [Complete(r, done[0].index, done[0].failure)] + CompleteAll(r, done[1..])
  }

  /** The completions still to come are of different checks, all still at work. */
  ghost predicate Pending(s: CheckerState, r: nat, done: seq<Completion>) {
    && r < |s.runs| && |s.runs[r].phases| == |s.runs[r].names|
    && (forall k | 0 <= k < |done| ::
          done[k].index < |s.runs[r].phases| && s.runs[r].phases[done[k].index].Working?)
    && (forall j, k | 0 <= j < k < |done| :: done[j].index != done[k].index)
  }

  /** From s to t exactly these checks of run r have finished, in this order. */
  ghost predicate Completed(s: CheckerState, t: CheckerState, r: nat, done: seq<Completion>)
    requires Pending(s, r, done)
  {
    && |t.runs| == |s.runs| && |t.runs[r].phases| == |s.runs[r].phases|
    && t.runs[r].done == s.runs[r].done + done
    && (forall i | 0 <= i < |s.runs[r].phases| && s.runs[r].phases[i].Done? :: t.runs[r].phases[i].Done?)
    && (forall k | 0 <= k < |done| :: t.runs[r].phases[done[k].index].Done?)
  }

  lemma PendingAfter(s: CheckerState, r: nat, done: seq<Completion>)
    requires Pending(s, r, done) && done != []
    ensures Pending(Apply(s, Complete(r, done[0].index, done[0].failure)), r, done[1..])
  {
  }

  lemma AllCompleted(s: CheckerState, t: CheckerState, r: nat, done: seq<Completion>)
    requires Pending(s, r, done) && done != []
    requires var s' := Apply(s, Complete(r, done[0].index, done[0].failure));
      Pending(s', r, done[1..]) && Completed(s', t, r, done[1..])
    ensures Completed(s, t, r, done)
  {
    var s' := Apply(s, Complete(r, done[0].index, done[0].failure));
    assert (s.runs[r].done + [done[0]]) + done[1..] == s.runs[r].done + done;
    assert s'.runs[r].phases[done[0].index].Done?;
    assert forall k | 0 < k < |done| :: done[k] == done[1..][k - 1];
  }

  lemma {:induction false} CompleteAllRuns(s: CheckerState, r: nat, done: seq<Completion>)
    requires Pending(s, r, done)
    ensures CanRun(s, CompleteAll(r, done))
    ensures Completed(s, Run(s, CompleteAll(r, done)), r, done)
    decreases done
  {
    if done != [] {
      var step, rest := Complete(r, done[0].index, done[0].failure), done[1..];
      RunOne(s, step);
      PendingAfter(s, r, done);
      CompleteAllRuns(Apply(s, step), r, rest);
      RunConcat(s, [step], CompleteAll(r, rest));
      AllCompleted(s, Run(s, CompleteAll(r, done)), r, done);
    } else {
      assert s.runs[r].done + done == s.runs[r].done;
    }
  }

  lemma ReturnedOutcomes(service: string, version: string, before: seq<Step>, after: seq<Step>,
      outcomes: seq<Option<string>>)
    requires Returns(service, version, before, after)
    requires |outcomes| == |ChecksThen(service, version, before)|
    requires Schedules(outcomes, RunOf(service, version, before, after).done)
    ensures AllDone(RunOf(service, version, before, after))
    ensures Outcomes(RunOf(service, version, before, after)) == outcomes
  {
    ReturnedRun(service, version, before, after);
    var r := RunOf(service, version, before, after);
    forall i | 0 <= i < |outcomes| ensures Outcomes(r)[i] == outcomes[i] {
      assert Ran(r.done, i);
    }
  }

  lemma AllFinished(s: CheckerState, t: CheckerState, outcomes: seq<Option<string>>, done: seq<Completion>)
    requires Pending(s, 0, done) && Completed(s, t, 0, done)
    requires |s.runs[0].phases| == |outcomes| && Schedules(outcomes, done)
    ensures AllDone(t.runs[0])
  {
    forall i | 0 <= i < |outcomes| ensures t.runs[0].phases[i].Done? {
      assert Ran(done, i);
    }
  }

  /** Whatever checks there are, however they come out and in whatever order they finish, some
      run of the checker is just that and returns. */
  lemma EveryScheduleRuns(service: string, version: string,
      names: seq<string>, outcomes: seq<Option<string>>, done: seq<Completion>)
    returns (before: seq<Step>, after: seq<Step>)
    requires |names| == |outcomes| && Schedules(outcomes, done)
    ensures Returns(service, version, before, after)
    ensures ChecksThen(service, version, before) == names
    ensures var r := RunOf(service, version, before, after);
      r.done == done && AllDone(r) && Outcomes(r) == outcomes
  {
    var init := NewChecker(service, version);
    before := Registrations(names);
    RegistrationsRun(init, names);
    assert [] + names == names;
    var s := Apply(Run(init, before), Begin);
    CompleteAllRuns(s, 0, done);
    var t := Run(s, CompleteAll(0, done));
    AllFinished(s, t, outcomes, done);
    RunOne(t, Return(0));
    after := CompleteAll(0, done) + [Return(0)];
    RunConcat(s, CompleteAll(0, done), [Return(0)]);
    assert [] + done == done;
    ReturnedOutcomes(service, version, before, after, outcomes);
  }

  // ---------- The checker in place ----------

  class Checker {
    var checks: seq<string>
    const service: string
    const version: string

    constructor (service: string, version: string)
      ensures checks == [] && this.service == service && this.version == version
    {
      checks, this.service, this.version := [], service, version;
    }

    method Add(name: string) returns (c: Checker)
      modifies this
      ensures c == this && checks == old(checks) + [name]
    {
      checks := checks + [name];
      return this;
    }

    /** One run whose goroutines reach the mutex in the order `done`. */
    method RunChecks(done: seq<Completion>) returns (report: Report)
      requires InRange(checks, done)
      ensures report == Fold(checks, EmptyReport(service, version), done)
    {
      var status := "ok";
      var entries := map[];
      for k := 0 to |done|
        invariant Report(status, service, version, entries) == Fold(checks, EmptyReport(service, version), done[..k])
      {
        assert done[..k + 1][..k] == done[..k];
        var result;
        if done[k].failure.Some? {
          result := "error: " + done[k].failure.value;
        } else {
          result := "ok";
        }
        entries := entries[checks[done[k].index] := result];
        if result != "ok" {
          status := "degraded";
        }
      }
      assert done[..|done|] == done;
      return Report(status, service, version, entries);
    }
  }

  // ---------- The HTTP answer, and what a prober stores for it ----------

  datatype Answer = Answer(code: nat, body: Report)

  function Handle(report: Report): Answer {
    Answer(if report.status != "ok" then 503 else 200, report)
  }

  /** A faithful transfer of the JSON body: the decoder fills what the encoder wrote. */
  function Received(answer: Answer): ProbeOutcome {
    Decoded(answer.code,
      HealthResponse(answer.body.status, answer.body.version, answer.body.service, answer.body.checks))
  }

  /** End to end: a service that answers with a finished report is stored as ok exactly when
      all its checks passed and as down otherwise, never degraded, with the version and one
      entry per name: the text of the last check of that name to finish. */
  lemma StoredStatus(
    svc: ServiceEntry, started: nat, latency: nat,
    names: seq<string>, service: string, version: string, outcomes: seq<Option<string>>, done: seq<Completion>)
    requires |names| == |outcomes| && Schedules(outcomes, done)
    ensures var answer := Handle(Fold(names, EmptyReport(service, version), done));
      answer.code == (if forall i | 0 <= i < |outcomes| :: outcomes[i].None? then 200 else 503)
      && answer.body == Fold(names, EmptyReport(service, version), done)
    ensures var report := Fold(names, EmptyReport(service, version), done);
      var st := ProbeResult(svc, started, latency, Received(Handle(report)));
      && st.status == (if Healthy(outcomes) then "ok" else "down")
      && st.version == version && st.error == "" && st.lastCheck == started
      && (forall n :: n in st.checks <==> n in names)
      && (forall n | n in names :: LastOf(names, done, n) >= 0)
      && (forall n | n in names ::
            var o := outcomes[done[LastOf(names, done, n)].index];
            st.checks[n] == if o.None? then "ok" else "error: " + o.value)
      && (Distinct(names) ==> forall i | 0 <= i < |names| ::
            st.checks[names[i]] == if outcomes[i].None? then "ok" else "error: " + outcomes[i].value)
  {
    StatusIsConfluent(names, service, version, outcomes, done);
    FoldStatus(names, service, version, done);
    ReportEntries(names, service, version, outcomes, done);
  }

  /** What a prober stores of the report of a run that has returned, through any interleaving. */
  function StoredOf(svc: ServiceEntry, started: nat, latency: nat,
      service: string, version: string, before: seq<Step>, after: seq<Step>): ServiceStatus
    requires Returns(service, version, before, after)
  {
    ProbeResult(svc, started, latency, Received(Handle(RunOf(service, version, before, after).report)))
  }

  lemma ReturnedIsStored(svc: ServiceEntry, started: nat, latency: nat,
      service: string, version: string, before: seq<Step>, after: seq<Step>)
    requires Returns(service, version, before, after)
    ensures AllDone(RunOf(service, version, before, after))
    ensures Handle(RunOf(service, version, before, after).report).code ==
      if Healthy(Outcomes(RunOf(service, version, before, after))) then 200 else 503
    ensures var r, names := RunOf(service, version, before, after), ChecksThen(service, version, before);
      var outcomes := Outcomes(r);
      var st := StoredOf(svc, started, latency, service, version, before, after);
      && |names| == |outcomes|
      && st.status == (if Healthy(outcomes) then "ok" else "down")
      && st.version == version
      && (forall n :: n in st.checks <==> n in names)
      && (Distinct(names) ==> forall i | 0 <= i < |names| ::
            st.checks[names[i]] == if outcomes[i].None? then "ok" else "error: " + outcomes[i].value)
  {
    ReturnedRun(service, version, before, after);
    var r := RunOf(service, version, before, after);
    StoredStatus(svc, started, latency, r.names, service, version, Outcomes(r), r.done);
  }
}
