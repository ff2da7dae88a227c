/** The order of events in a run: nesting of layers, the in-flight gauge, request ids. */
module Tracing {
  import opened Handlers
  import opened Accounting

  // ---------- Nesting ----------

  predicate IsFrame(e: Event) { e.Enter? || e.Exit? }

  /** Only the entering and leaving of layers. */
  function Frames(t: seq<Event>): seq<Event> {
    if t == [] then []
    else if IsFrame(t[0]) then [t[0]] + Frames(t[1..])
    else Frames(t[1..])
  }

  lemma {:induction false} FramesConcat(a: seq<Event>, b: seq<Event>)
    ensures Frames(a + b) == Frames(a) + Frames(b)
  {
    if a == [] {
      assert a + b == b;
    } else {
      assert (a + b)[1..] == a[1..] + b;
      FramesConcat(a[1..], b);
      if IsFrame(a[0]) {
        assert Frames(a + b) == [a[0]] + (Frames(a[1..]) + Frames(b));
      }
    }
  }

  lemma FramesOfFew(t: seq<Event>)
    requires 1 <= |t| <= 2 && IsFrame(t[0])
    ensures Frames(t) == if |t| == 2 && IsFrame(t[1]) then t else [t[0]]
  {
    if |t| == 2 {
      assert t[1..] == [t[1]] && [t[1]][1..] == [];
      assert Frames([t[1]]) == if IsFrame(t[1]) then [t[1]] else [];
    } else {
      assert t[1..] == [];
    }
  }

  /** How many layers a request gets into. */
  function Entered(mws: seq<Middleware>, req: Request): (k: nat)
    ensures k <= |mws|
  {
    if mws == [] then 0 else if ShortCircuits(mws[0], req) then 1 else 1 + Entered(mws[1..], req)
  }

  /** How control comes back to layer i. */
  function HowAt(mws: seq<Middleware>, req: Request, actions: seq<Action>, i: nat): Ending
    requires i < |mws|
  {
    if !ShortCircuits(mws[i], req) && Escapes(mws[i + 1..], req, actions) then Panicked else Returned
  }

  /** t enters the first layers of `mws` in order and leaves them in reverse. */
  ghost predicate Bracketed(
    t: seq<Event>, mws: seq<Middleware>, req: Request, actions: seq<Action>, depth: nat)
  {
    var k := Entered(mws, req);
    && |t| == 2 * k
    && (forall i | 0 <= i < k :: t[i] == Enter(depth + i, mws[i]))
    && (forall i | 0 <= i < k :: t[2 * k - 1 - i] == Exit(depth + i, mws[i], HowAt(mws, req, actions, i)))
  }

  lemma BracketLayer(t: seq<Event>, mws: seq<Middleware>, req: Request, actions: seq<Action>, depth: nat)
    requires mws != [] && !ShortCircuits(mws[0], req)
    requires Bracketed(t, mws[1..], req, actions, depth + 1)
    ensures Bracketed([Enter(depth, mws[0])] + t + [Exit(depth, mws[0], HowAt(mws, req, actions, 0))],
      mws, req, actions, depth)
  {
    var rest, k := mws[1..], Entered(mws[1..], req);
    var u := [Enter(depth, mws[0])] + t + [Exit(depth, mws[0], HowAt(mws, req, actions, 0))];
    forall i | 0 <= i < k + 1
      ensures u[i] == Enter(depth + i, mws[i])
      ensures u[2 * k + 1 - i] == Exit(depth + i, mws[i], HowAt(mws, req, actions, i))
    {
      if i > 0 {
        assert rest[i - 1] == mws[i] && rest[i..] == mws[i + 1..];
        assert u[i] == t[i - 1] && t[i - 1] == Enter(depth + i, mws[i]);
        assert u[2 * k + 1 - i] == t[2 * k - 1 - (i - 1)];
      }
    }
  }

  /** The outermost layer's own events: it is left once, and its one other event is no frame. */
  lemma OuterShape(mws: seq<Middleware>, actions: seq<Action>, req: Request, id: string, depth: nat, w: Writer)
    requires mws != [] && !ShortCircuits(mws[0], req)
    ensures var own := Outer(mws, actions, req, id, depth, w).trace;
      && 1 <= |own| <= 2 && own[0] == Exit(depth, mws[0], HowAt(mws, req, actions, 0))
      && (|own| == 2 ==> !IsFrame(own[1]))
      && (forall e | e in own :: !e.Handled? && (e.Logged? || e.Recovered? ==> e.depth == depth && e.id == id))
  {
    OuterTrace(mws, actions, req, id, depth, w);
  }

  lemma FramesOfLayer(mws: seq<Middleware>, actions: seq<Action>, req: Request, id: string, depth: nat, w: Writer)
    requires mws != [] && !ShortCircuits(mws[0], req)
    ensures Frames(Run(mws, actions, req, id, depth, w).trace)
      == [Enter(depth, mws[0])] + Frames(Inside(mws, actions, req, id, depth, w).trace)
        + [Exit(depth, mws[0], HowAt(mws, req, actions, 0))]
  {
    var inner := Inside(mws, actions, req, id, depth, w).trace;
    var own := Outer(mws, actions, req, id, depth, w).trace;
    TraceOfLayer(mws, actions, req, id, depth, w);
    OuterShape(mws, actions, req, id, depth, w);
    var enter := [Enter(depth, mws[0])];
    FramesConcat(enter, inner);
    FramesConcat(enter + inner, own);
    FramesOfFew(enter);
    FramesOfFew(own);
  }

  /** Layers are entered in list order and left in reverse, once each, whatever the handler
      does and wherever a layer answers in its place. */
  lemma {:induction false} ChainIsWellNested(
    mws: seq<Middleware>, actions: seq<Action>, req: Request, id: string, depth: nat, w: Writer)
    ensures Bracketed(Frames(Run(mws, actions, req, id, depth, w).trace), mws, req, actions, depth)
    decreases mws
  {
    if mws == [] {
      assert Run(mws, actions, req, id, depth, w).trace[1..] == [];
    } else if ShortCircuits(mws[0], req) {
      FramesOfFew(Run(mws, actions, req, id, depth, w).trace);
    } else {
      var id' := IdPast(mws[0], req, id, depth);
      ChainIsWellNested(mws[1..], actions, req, id', depth + 1, WriterPast(mws[0], w, id'));
      FramesOfLayer(mws, actions, req, id, depth, w);
      BracketLayer(Frames(Inside(mws, actions, req, id, depth, w).trace), mws, req, actions, depth);
    }
  }

  // ---------- The call stack and the gauge ----------

  /** What one event does to the call stack, innermost layer last. */
  function Push(stack: seq<Middleware>, e: Event): seq<Middleware> {
    if e.Enter? then stack + [e.mw]
    else if e.Exit? && stack != [] then stack[..|stack| - 1]
    else stack
  }

  /** The layers on the call stack after events t. */
  function Stack(base: seq<Middleware>, t: seq<Event>): seq<Middleware>
    decreases t
  {
    if t == [] then base else Stack(Push(base, t[0]), t[1..])
  }

  /** A leaving matches the innermost layer. */
  predicate Matches(stack: seq<Middleware>, e: Event) {
    e.Exit? ==> stack != [] && stack[|stack| - 1] == e.mw
  }

  predicate Nested(base: seq<Middleware>, t: seq<Event>)
    decreases t
  {
    t == [] || (Matches(base, t[0]) && Nested(Push(base, t[0]), t[1..]))
  }

  function NumMetrics(st: seq<Middleware>): nat {
    if st == [] then 0 else NumMetrics(st[..|st| - 1]) + if st[|st| - 1].Metrics? then 1 else 0
  }

  /** What events do to the in-flight gauge: up on entering a metrics layer, down when its
      inner handler returns; a panic passes the decrement by. */
  function GaugeStep(e: Event): int {
    if e.Enter? && e.mw.Metrics? then 1
    else if e.Exit? && e.mw.Metrics? && e.how.Returned? then -1
    else 0
  }

  function Gauge(t: seq<Event>): int {
    if t == [] then 0 else GaugeStep(t[0]) + Gauge(t[1..])
  }

  /** How many metrics layers a panic has left. */
  function PanicExits(t: seq<Event>): nat {
    if t == [] then 0
    else (if t[0].Exit? && t[0].mw.Metrics? && t[0].how.Panicked? then 1 else 0) + PanicExits(t[1..])
  }

  lemma {:induction false} StackConcat(base: seq<Middleware>, a: seq<Event>, b: seq<Event>)
    ensures Stack(base, a + b) == Stack(Stack(base, a), b)
    ensures Nested(base, a + b) <==> Nested(base, a) && Nested(Stack(base, a), b)
    decreases a
  {
    if a == [] {
      assert a + b == b;
    } else {
      assert (a + b)[1..] == a[1..] + b;
      StackConcat(Push(base, a[0]), a[1..], b);
    }
  }

  lemma {:induction false} GaugeConcat(a: seq<Event>, b: seq<Event>)
    ensures Gauge(a + b) == Gauge(a) + Gauge(b)
    ensures PanicExits(a + b) == PanicExits(a) + PanicExits(b)
  {
    if a == [] {
      assert a + b == b;
    } else {
      assert (a + b)[1..] == a[1..] + b;
      GaugeConcat(a[1..], b);
    }
  }

  lemma StackOfFew(base: seq<Middleware>, t: seq<Event>)
    requires 1 <= |t| <= 2 && (|t| == 2 ==> !IsFrame(t[1]))
    ensures Stack(base, t) == Push(base, t[0])
    ensures Nested(base, t) <==> Matches(base, t[0])
  {
    var b := Push(base, t[0]);
    assert t[1..] == if |t| == 2 then [t[1]] else [];
    if |t| == 2 {
      assert [t[1]][1..] == [];
      assert Stack(b, [t[1]]) == Stack(Push(b, t[1]), []);
      assert Nested(b, [t[1]]);
    }
  }

  /** A run leaves the call stack as it found it, and leaves every layer it enters. */
  lemma {:induction false} RunIsNested(
    mws: seq<Middleware>, actions: seq<Action>, req: Request, id: string, depth: nat, w: Writer, base: seq<Middleware>)
    ensures var t := Run(mws, actions, req, id, depth, w).trace; Nested(base, t) && Stack(base, t) == base
    decreases mws
  {
    var r := Run(mws, actions, req, id, depth, w);
    if mws == [] {
      StackOfFew(base, r.trace);
    } else {
      var enter := [Enter(depth, mws[0])];
      StackOfFew(base, enter);
      if ShortCircuits(mws[0], req) {
        var exit := [Exit(depth, mws[0], Returned)];
        StackOfFew(base + [mws[0]], exit);
        StackConcat(base, enter, exit);
        assert r.trace == enter + exit;
      } else {
        var id' := IdPast(mws[0], req, id, depth);
        var inner := Inside(mws, actions, req, id, depth, w);
        var outer := Outer(mws, actions, req, id, depth, w);
        RunIsNested(mws[1..], actions, req, id', depth + 1, WriterPast(mws[0], w, id'), base + [mws[0]]);
        TraceOfLayer(mws, actions, req, id, depth, w);
        OuterShape(mws, actions, req, id, depth, w);
        StackOfFew(base + [mws[0]], outer.trace);
        StackConcat(base, enter, inner.trace);
        StackConcat(base, enter + inner.trace, outer.trace);
      }
    }
  }

  lemma {:induction false} NestedGauge(base: seq<Middleware>, t: seq<Event>)
    requires Nested(base, t)
    ensures Gauge(t) + NumMetrics(base) == NumMetrics(Stack(base, t)) + PanicExits(t)
    decreases t
  {
    if t != [] {
      var next := Push(base, t[0]);
      if t[0].Enter? {
        assert next[..|next| - 1] == base;
      }
      NestedGauge(next, t[1..]);
    }
  }

  /** At every moment of every run, for every chain and script: the gauge has moved by the
      metrics layers now on the call stack plus those a panic has left. */
  lemma GaugeIsConserved(
    mws: seq<Middleware>, actions: seq<Action>, req: Request, id: string, depth: nat, w: Writer, n: nat)
    requires n <= |Run(mws, actions, req, id, depth, w).trace|
    ensures var t := Run(mws, actions, req, id, depth, w).trace[..n];
      Gauge(t) == NumMetrics(Stack([], t)) + PanicExits(t)
  {
    var t := Run(mws, actions, req, id, depth, w).trace;
    RunIsNested(mws, actions, req, id, depth, w, []);
    assert t == t[..n] + t[n..];
    StackConcat([], t[..n], t[n..]);
    NestedGauge([], t[..n]);
  }

  /** How many metrics layers a panic leaves. */
  function LostLayers(mws: seq<Middleware>, req: Request, actions: seq<Action>): nat {
    if mws == [] || ShortCircuits(mws[0], req) then 0
    else (if mws[0].Metrics? && Escapes(mws[1..], req, actions) then 1 else 0) + LostLayers(mws[1..], req, actions)
  }

  lemma PanicExitsOfFew(t: seq<Event>)
    requires 1 <= |t| <= 2 && (|t| == 2 ==> !t[1].Exit? || t[1].how.Returned?)
    ensures PanicExits(t) == if t[0].Exit? && t[0].mw.Metrics? && t[0].how.Panicked? then 1 else 0
  {
    assert t[1..] == if |t| == 2 then [t[1]] else [];
    if |t| == 2 { assert [t[1]][1..] == []; }
  }

  lemma {:induction false} PanicExitsOfRun(
    mws: seq<Middleware>, actions: seq<Action>, req: Request, id: string, depth: nat, w: Writer)
    ensures PanicExits(Run(mws, actions, req, id, depth, w).trace) == LostLayers(mws, req, actions)
    decreases mws
  {
    var r := Run(mws, actions, req, id, depth, w);
    if mws == [] || ShortCircuits(mws[0], req) {
      PanicExitsOfFew(r.trace);
    } else {
      var id' := IdPast(mws[0], req, id, depth);
      var inner := Inside(mws, actions, req, id, depth, w).trace;
      var own := Outer(mws, actions, req, id, depth, w).trace;
      PanicExitsOfRun(mws[1..], actions, req, id', depth + 1, WriterPast(mws[0], w, id'));
      TraceOfLayer(mws, actions, req, id, depth, w);
      OuterShape(mws, actions, req, id, depth, w);
      var enter := [Enter(depth, mws[0])];
      GaugeConcat(enter, inner);
      GaugeConcat(enter + inner, own);
      PanicExitsOfFew(enter);
      PanicExitsOfFew(own);
    }
  }

  // ---------- Chains with one metrics layer ----------

  predicate EntersMetrics(e: Event) { e.Enter? && e.mw.Metrics? }

  predicate LeavesMetrics(e: Event) { e.Exit? && e.mw.Metrics? }

  predicate ThrownOut(e: Event) { LeavesMetrics(e) && e.how.Panicked? }

  /** How many events satisfy p. */
  function NumOf(t: seq<Event>, p: Event -> bool): nat {
    if t == [] then 0 else (if p(t[0]) then 1 else 0) + NumOf(t[1..], p)
  }

  lemma {:induction false} NumOfConcat(a: seq<Event>, b: seq<Event>, p: Event -> bool)
    ensures NumOf(a + b, p) == NumOf(a, p) + NumOf(b, p)
  {
    if a == [] {
      assert a + b == b;
    } else {
      assert (a + b)[1..] == a[1..] + b;
      NumOfConcat(a[1..], b, p);
    }
  }

  lemma {:induction false} NumOfNone(t: seq<Event>, p: Event -> bool)
    ensures NumOf(t, p) == 0 <==> forall e | e in t :: !p(e)
  {
    if t != [] {
      NumOfNone(t[1..], p);
      assert t[0] in t && forall e :: e in t <==> e == t[0] || e in t[1..];
    }
  }

  lemma {:induction false} PanicExitsAreThrownOut(t: seq<Event>)
    ensures PanicExits(t) == NumOf(t, ThrownOut) <= NumOf(t, LeavesMetrics)
  {
    if t != [] { PanicExitsAreThrownOut(t[1..]); }
  }

  lemma {:induction false} NestedMetrics(base: seq<Middleware>, t: seq<Event>)
    requires Nested(base, t)
    ensures NumMetrics(Stack(base, t)) == NumMetrics(base) + NumOf(t, EntersMetrics) - NumOf(t, LeavesMetrics)
    decreases t
  {
    if t != [] {
      var next := Push(base, t[0]);
      if t[0].Enter? {
        assert next[..|next| - 1] == base;
      }
      NestedMetrics(next, t[1..]);
    }
  }

  /** How many metrics layers a chain has. */
  function MetricsLayers(mws: seq<Middleware>): nat {
    if mws == [] then 0 else (if mws[0].Metrics? then 1 else 0) + MetricsLayers(mws[1..])
  }

  lemma {:induction false} EntersAtMost(
    mws: seq<Middleware>, actions: seq<Action>, req: Request, id: string, depth: nat, w: Writer)
    ensures NumOf(Run(mws, actions, req, id, depth, w).trace, EntersMetrics) <= MetricsLayers(mws)
    decreases mws
  {
    var r := Run(mws, actions, req, id, depth, w);
    if mws == [] {
      NumOfNone(r.trace, EntersMetrics);
    } else if ShortCircuits(mws[0], req) {
      NumOfNone(r.trace, EntersMetrics);
    } else {
      var id' := IdPast(mws[0], req, id, depth);
      var enter, inner := [Enter(depth, mws[0])], Inside(mws, actions, req, id, depth, w).trace;
      var own := Outer(mws, actions, req, id, depth, w).trace;
      EntersAtMost(mws[1..], actions, req, id', depth + 1, WriterPast(mws[0], w, id'));
      TraceOfLayer(mws, actions, req, id, depth, w);
      OuterShape(mws, actions, req, id, depth, w);
      NumOfNone(own, EntersMetrics);
      NumOfConcat(enter, inner, EntersMetrics);
      NumOfConcat(enter + inner, own, EntersMetrics);
      assert enter[1..] == [];
    }
  }

  /** A request is inside the metrics layer: it has entered it and not left it. */
  predicate IsInside(t: seq<Event>) {
    (exists e | e in t :: EntersMetrics(e)) && forall e | e in t :: !LeavesMetrics(e)
  }

  predicate WasThrownOut(t: seq<Event>) { exists e | e in t :: ThrownOut(e) }

  /** In a chain with at most one metrics layer, that layer is on the call stack exactly while
      the request is inside it, and a panic leaves it at most once. */
  lemma OneMetricsLayer(
    mws: seq<Middleware>, actions: seq<Action>, req: Request, id: string, depth: nat, w: Writer, n: nat)
    requires MetricsLayers(mws) <= 1 && n <= |Run(mws, actions, req, id, depth, w).trace|
    ensures var t := Run(mws, actions, req, id, depth, w).trace[..n];
      && NumMetrics(Stack([], t)) == (if IsInside(t) then 1 else 0)
      && PanicExits(t) == (if WasThrownOut(t) then 1 else 0)
  {
    var full := Run(mws, actions, req, id, depth, w).trace;
    var t := full[..n];
    assert full == t + full[n..];
    RunIsNested(mws, actions, req, id, depth, w, []);
    StackConcat([], t, full[n..]);
    NestedMetrics([], t);
    EntersAtMost(mws, actions, req, id, depth, w);
    NumOfConcat(t, full[n..], EntersMetrics);
    PanicExitsAreThrownOut(t);
    NumOfNone(t, EntersMetrics);
    NumOfNone(t, LeavesMetrics);
    NumOfNone(t, ThrownOut);
  }

  // ---------- Request ids ----------

  /** The context id that layer i (or, for i = |mws|, the handler) sees. */
  function IdAt(mws: seq<Middleware>, req: Request, id: string, depth: nat, i: nat): string
    requires i <= |mws|
  {
    if i == 0 then id else IdAt(mws[1..], req, IdPast(mws[0], req, id, depth), depth + 1, i - 1)
  }

  predicate ContextId(e: Event, mws: seq<Middleware>, req: Request, id: string, depth: nat) {
    && (e.Handled? ==> e.id == IdAt(mws, req, id, depth, |mws|))
    && (e.Logged? || e.Recovered? ==>
          depth <= e.depth < depth + |mws| && e.id == IdAt(mws, req, id, depth, e.depth - depth))
  }

  /** The handler and every log entry carry the id of the context at their layer. */
  lemma {:induction false} IdsAreContextual(
    mws: seq<Middleware>, actions: seq<Action>, req: Request, id: string, depth: nat, w: Writer)
    ensures forall e | e in Run(mws, actions, req, id, depth, w).trace :: ContextId(e, mws, req, id, depth)
    decreases mws
  {
    if mws != [] && !ShortCircuits(mws[0], req) {
      var id' := IdPast(mws[0], req, id, depth);
      IdsAreContextual(mws[1..], actions, req, id', depth + 1, WriterPast(mws[0], w, id'));
      TraceOfLayer(mws, actions, req, id, depth, w);
      OuterShape(mws, actions, req, id, depth, w);
      forall e | e in Run(mws, actions, req, id, depth, w).trace ensures ContextId(e, mws, req, id, depth) {
        if e in Inside(mws, actions, req, id, depth, w).trace {
          assert ContextId(e, mws[1..], req, id', depth + 1);
        }
      }
    }
  }

  predicate IsHandled(e: Event) { e.Handled? }

  /** The handler runs exactly when no layer answers in its place. */
  lemma {:induction false} HandlerRunsWhenReached(
    mws: seq<Middleware>, actions: seq<Action>, req: Request, id: string, depth: nat, w: Writer)
    ensures (exists e | e in Run(mws, actions, req, id, depth, w).trace :: IsHandled(e)) <==> Reaches(mws, req)
    decreases mws
  {
    var t := Run(mws, actions, req, id, depth, w).trace;
    if mws == [] {
      assert IsHandled(t[0]);
    } else if ShortCircuits(mws[0], req) {
      assert mws[0] in mws;
    } else {
      var id' := IdPast(mws[0], req, id, depth);
      var inner := Inside(mws, actions, req, id, depth, w).trace;
      HandlerRunsWhenReached(mws[1..], actions, req, id', depth + 1, WriterPast(mws[0], w, id'));
      TraceOfLayer(mws, actions, req, id, depth, w);
      OuterShape(mws, actions, req, id, depth, w);
      assert forall m :: m in mws <==> m == mws[0] || m in mws[1..];
      assert forall e :: e in t && IsHandled(e) <==> e in inner && IsHandled(e);
    }
  }

  lemma {:induction false} IdUnchanged(mws: seq<Middleware>, req: Request, id: string, depth: nat, i: nat)
    requires i <= |mws| && RequestID !in mws[..i]
    ensures IdAt(mws, req, id, depth, i) == id
    decreases i
  {
    if i > 0 {
      assert mws[..i][0] == mws[0] && mws[1..][..i - 1] == mws[..i][1..];
      IdUnchanged(mws[1..], req, IdPast(mws[0], req, id, depth), depth + 1, i - 1);
    }
  }

  lemma {:induction false} RunKeepsSentHeader(
    mws: seq<Middleware>, actions: seq<Action>, req: Request, id: string, depth: nat, w: Writer)
    requires RequestID !in mws
    ensures WireOf(Run(mws, actions, req, id, depth, w).writer).idHeader == WireOf(w).idHeader
    decreases mws
  {
    if mws == [] {
      PerformKeepsHeader(actions, w);
    } else if ShortCircuits(mws[0], req) {
      ActKeepsHeader(w, SetCode(204));
    } else {
      var inner := Inside(mws, actions, req, id, depth, w);
      assert mws[0] in mws;
      RunKeepsSentHeader(mws[1..], actions, req, id, depth + 1, WriterPast(mws[0], w, id));
      assert mws[0].Logger? ==> Shape(inner.writer)[0];
      assert mws[0].Metrics? ==> !Shape(inner.writer)[0];
      ActKeepsHeader(inner.writer, SetCode(500));
      ActKeepsHeader(WriteHeader(inner.writer, 500), Body(|ERROR_PAGE|, req.errorRoom));
    }
  }

  lemma ActKeepsHeader(w: Writer, a: Action)
    requires !a.Panic?
    ensures WireOf(Act(w, a)).idHeader == WireOf(w).idHeader
  {
    if !w.Bottom? { ActKeepsHeader(w.inner, a); }
  }

  lemma PerformKeepsHeader(actions: seq<Action>, w: Writer)
    ensures WireOf(Perform(actions, w).0).idHeader == WireOf(w).idHeader
    decreases actions
  {
    if actions != [] && !actions[0].Panic? {
      ActKeepsHeader(w, actions[0]);
      PerformKeepsHeader(actions[1..], Act(w, actions[0]));
    }
  }
}
