/** The middlewares as the program runs them: recorders are objects that write through to the
    writer they wrap and update their own fields, and the log, the gauge and the counter are
    shared objects changed in place. */
module Recorders {
  import opened Platform
  import opened Handlers
  import opened Accounting
  import opened Tracing
  import opened StandardStack

  datatype Kind = Connection | LoggingRecorder | CountingRecorder

  class ResponseWriter {
    const kind: Kind
    const inner: ResponseWriter?
    var status: nat
    var size: nat
    var wire: Wire
    ghost const Repr: set<ResponseWriter>

    /** A recorder owns the chain of writers below it.  No field in this picture ever changes. */
    ghost predicate Valid()
      decreases Repr
    {
      && this in Repr
      && (kind.Connection? <==> inner == null)
      && (inner == null ==> Repr == {this})
      && (inner != null ==> this !in inner.Repr && inner.Repr < Repr && Repr == {this} + inner.Repr && inner.Valid())
    }

    ghost function Value(): Writer
      requires Valid()
      reads Repr
      decreases Repr
    {
      match kind
      case Connection => Bottom(wire)
      case LoggingRecorder => Logging(status, size, inner.Value())
      case CountingRecorder => Counting(status, inner.Value())
    }

    constructor Connect()
      ensures Valid() && fresh(Repr) && Value() == Fresh()
    {
      kind, inner, status, size, wire, Repr := Connection, null, 200, 0, Wire("", None, 0), {this};
    }

    /** A recorder starts out assuming 200. */
    constructor Record(kind: Kind, inner: ResponseWriter)
      requires !kind.Connection? && inner.Valid()
      ensures Valid() && Repr == {this} + inner.Repr && this !in inner.Repr
      ensures this.kind == kind && this.inner == inner
      ensures Value() == if kind.LoggingRecorder? then Logging(200, 0, inner.Value()) else Counting(200, inner.Value())
    {
      this.kind, this.inner, status, size, wire := kind, inner, 200, 0, Wire("", None, 0);
      Repr := {this} + inner.Repr;
    }

    method SetHeader(id: string)
      requires Valid()
      modifies Repr
      ensures Value() == SetIdHeader(old(Value()), id)
      decreases Repr
    {
      if inner == null {
        if wire.status.None? { wire := wire.(idHeader := id); }
      } else {
        inner.SetHeader(id);
      }
    }

    method SendHeader(code: nat)
      requires Valid()
      modifies Repr
      ensures Value() == WriteHeader(old(Value()), code)
      decreases Repr
    {
      if inner == null {
        if wire.status.None? { wire := wire.(status := Some(code)); }
      } else {
        status := code;
        inner.SendHeader(code);
      }
    }

    method Send(len: nat, room: nat) returns (n: nat)
      requires Valid()
      modifies Repr
      ensures Value() == Write(old(Value()), len, room)
      ensures n == Accepted(old(Value()), len, room)
      decreases Repr
    {
      if inner == null {
        if wire.status.None? { wire := wire.(status := Some(200)); }
        n := if !BodyAllowed(wire.status.value) then 0 else if len <= room then len else room;
        wire := wire.(bytes := wire.bytes + n);
      } else {
        n := inner.Send(len, room);
        if kind.LoggingRecorder? { size := size + n; }
      }
    }

    method SendErrorPage(room: nat)
      requires Valid()
      modifies Repr
      ensures Value() == SendError(old(Value()), room)
    {
      SendHeader(500);
      var _ := Send(|ERROR_PAGE|, room);
    }
  }

  /** The shared observable state: the log, the in-flight gauge, the counter increments. */
  datatype Ledger = Ledger(log: seq<Event>, inFlight: int, total: seq<Event>)

  function Post(l: Ledger, e: Event): Ledger {
    Ledger(l.log + (if e.Logged? then [e] else []),
      l.inFlight + GaugeStep(e),
      l.total + if e.Counted? then [e] else [])
  }

  function PostAll(l: Ledger, t: seq<Event>): Ledger
    decreases t
  {
    if t == [] then l else PostAll(Post(l, t[0]), t[1..])
  }

  lemma {:induction false} PostConcat(l: Ledger, a: seq<Event>, b: seq<Event>)
    ensures PostAll(l, a + b) == PostAll(PostAll(l, a), b)
    decreases a
  {
    if a == [] {
      assert a + b == b;
    } else {
      assert (a + b)[1..] == a[1..] + b;
      PostConcat(Post(l, a[0]), a[1..], b);
    }
  }

  /** The log entries of a trace, in order. */
  function LogEntries(t: seq<Event>): seq<Event> {
    if t == [] then [] else (if t[0].Logged? then [t[0]] else []) + LogEntries(t[1..])
  }

  /** And its counter increments. */
  function Increments(t: seq<Event>): seq<Event> {
    if t == [] then [] else (if t[0].Counted? then [t[0]] else []) + Increments(t[1..])
  }

  lemma Associative(a: seq<Event>, b: seq<Event>, c: seq<Event>)
    ensures (a + b) + c == a + (b + c)
  {
  }

  /** What a ledger kept event by event gains: the trace's log entries and its counter
      increments, each as it was made and in order, and the trace's effect on the gauge. */
  lemma {:induction false} PostAllContents(l: Ledger, t: seq<Event>)
    ensures PostAll(l, t) == Ledger(l.log + LogEntries(t), l.inFlight + Gauge(t), l.total + Increments(t))
    decreases t
  {
    if t != [] {
      PostAllContents(Post(l, t[0]), t[1..]);
      Associative(l.log, if t[0].Logged? then [t[0]] else [], LogEntries(t[1..]));
      Associative(l.total, if t[0].Counted? then [t[0]] else [], Increments(t[1..]));
    } else {
      assert l.log + [] == l.log && l.total + [] == l.total;
    }
  }

  lemma {:induction false} EntriesAreEvents(t: seq<Event>)
    ensures forall e :: e in LogEntries(t) <==> e in t && e.Logged?
    ensures forall e :: e in Increments(t) <==> e in t && e.Counted?
    ensures |LogEntries(t)| == NumLogged(t) && |Increments(t)| == NumCounted(t)
  {
    if t != [] {
      EntriesAreEvents(t[1..]);
      assert forall e :: e in t <==> e == t[0] || e in t[1..];
    }
  }

  /** A handler that is reached and panics. */
  predicate Breaks(req: Request, actions: seq<Action>) {
    req.verb != "OPTIONS" && exists i | 0 <= i < |actions| :: actions[i].Panic?
  }

  lemma StandardGaugeChange(req: Request, actions: seq<Action>)
    ensures Gauge(Request1(req, actions).trace) == if Breaks(req, actions) then 1 else 0
  {
    var t := Request1(req, actions).trace;
    assert t[..|t|] == t;
    GaugeIsConserved(STANDARD, actions, req, "", 0, Fresh(), |t|);
    RunIsNested(STANDARD, actions, req, "", 0, Fresh(), []);
    PanicExitsOfRun(STANDARD, actions, req, "", 0, Fresh());
    StandardCalm(req, actions);
  }

  /** The last status a script asks for, or 200. */
  predicate StatusByScript(actions: seq<Action>, status: nat) {
    && (forall i | 0 <= i < |actions| && actions[i].SetCode?
          && (forall j | i < j < |actions| :: !actions[j].SetCode?) :: status == actions[i].code)
    && ((forall i | 0 <= i < |actions| :: !actions[i].SetCode?) ==> status == 200)
  }

  /** One request through the standard stack adds one log entry, and one counter increment
      with the same status unless the request is a preflight or its handler panics; and it
      leaves the gauge up by one exactly if the handler panics. */
  lemma StandardLedger(req: Request, actions: seq<Action>, l: Ledger) returns (entry: Event)
    ensures entry.Logged? && entry in Request1(req, actions).trace
    ensures var l' := PostAll(l, Request1(req, actions).trace);
      && l'.log == l.log + [entry]
      && l'.total == l.total +
           (if req.verb == "OPTIONS" || Breaks(req, actions) then [] else [Counted(req.verb, req.path, entry.status)])
      && l'.inFlight == l.inFlight + if Breaks(req, actions) then 1 else 0
  {
    var t := Request1(req, actions).trace;
    StandardRequest(req, actions);
    PostAllContents(l, t);
    EntriesAreEvents(t);
    entry := LogEntries(t)[0];
    assert entry in LogEntries(t);
    assert LogEntries(t) == [entry];
    if NumCounted(t) == 1 {
      assert Increments(t)[0] in Increments(t);
      assert Increments(t) == [Counted(req.verb, req.path, entry.status)];
    }
    StandardGaugeChange(req, actions);
  }

  lemma PostFew(l: Ledger, t: seq<Event>)
    requires 1 <= |t| <= 2
    ensures PostAll(l, t) == if |t| == 2 then Post(Post(l, t[0]), t[1]) else Post(l, t[0])
  {
    if |t| == 2 {
      assert t[1..] == [t[1]] && [t[1]][1..] == [];
      assert PostAll(Post(l, t[0]), [t[1]]) == PostAll(Post(Post(l, t[0]), t[1]), []);
    } else {
      assert t[1..] == [];
    }
  }

  /** A layer's ledger: it is entered, then the inside happens, then its own one or two events. */
  lemma PostLayer(l: Ledger, enter: Event, inside: seq<Event>, own: seq<Event>)
    requires 1 <= |own| <= 2
    ensures var l' := PostAll(Post(l, enter), inside);
      PostAll(l, [enter] + inside + own) == if |own| == 2 then Post(Post(l', own[0]), own[1]) else Post(l', own[0])
  {
    PostConcat(l, [enter] + inside, own);
    PostConcat(l, [enter], inside);
    PostFew(l, [enter]);
    PostFew(PostAll(Post(l, enter), inside), own);
  }

  /** What the metrics layer makes of the handler inside. */
  lemma MetricsLedger(h: Handler, req: Request, id: string, depth: nat, w: Writer, l: Ledger)
    requires h.Wrap? && h.mw.Metrics?
    ensures var inner, r := Serve(h.next, req, id, depth + 1, Counting(200, w)), Serve(h, req, id, depth, w);
      && inner.writer.Counting? && r.writer == inner.writer.inner && r.how == inner.how
      && var left := Post(PostAll(Post(l, Enter(depth, h.mw)), inner.trace), Exit(depth, h.mw, inner.how));
      PostAll(l, r.trace) ==
        if inner.how.Returned? then Post(left, Counted(req.verb, req.path, inner.writer.status)) else left
  {
    assert h == Wrap(h.mw, h.next);
    var inner := Serve(h.next, req, id, depth + 1, Counting(200, w));
    ServeWrapped(h.mw, h.next, req, id, depth, w);
    PostLayer(l, Enter(depth, h.mw), inner.trace, Unwind(h.mw, req, id, depth, inner).trace);
  }

  /** What the logging layer makes of the handler inside. */
  lemma LoggerLedger(h: Handler, req: Request, id: string, depth: nat, w: Writer, l: Ledger)
    requires h.Wrap? && h.mw.Logger?
    ensures var inner, r := Serve(h.next, req, id, depth + 1, Logging(200, 0, w)), Serve(h, req, id, depth, w);
      && inner.writer.Logging? && r.writer == inner.writer.inner && r.how == inner.how
      && var left := Post(PostAll(Post(l, Enter(depth, h.mw)), inner.trace), Exit(depth, h.mw, inner.how));
      PostAll(l, r.trace) ==
        if inner.how.Returned? then Post(left, Logged(depth, inner.writer.status, inner.writer.size, id)) else left
  {
    assert h == Wrap(h.mw, h.next);
    var inner := Serve(h.next, req, id, depth + 1, Logging(200, 0, w));
    ServeWrapped(h.mw, h.next, req, id, depth, w);
    PostLayer(l, Enter(depth, h.mw), inner.trace, Unwind(h.mw, req, id, depth, inner).trace);
  }

  /** What the recovering layer makes of the handler inside. */
  lemma RecoverLedger(h: Handler, req: Request, id: string, depth: nat, w: Writer, l: Ledger)
    requires h.Wrap? && h.mw.Recover?
    ensures var inner, r := Serve(h.next, req, id, depth + 1, w), Serve(h, req, id, depth, w);
      && r.how == Returned
      && r.writer == (if inner.how.Returned? then inner.writer else SendError(inner.writer, req.errorRoom))
      && var left := Post(PostAll(Post(l, Enter(depth, h.mw)), inner.trace), Exit(depth, h.mw, inner.how));
      PostAll(l, r.trace) == if inner.how.Returned? then left else Post(left, Recovered(depth, id))
  {
    assert h == Wrap(h.mw, h.next);
    var inner := Serve(h.next, req, id, depth + 1, w);
    ServeWrapped(h.mw, h.next, req, id, depth, w);
    PostLayer(l, Enter(depth, h.mw), inner.trace, Unwind(h.mw, req, id, depth, inner).trace);
  }

  /** What a layer without a recorder makes of a handler inside that it passes on to. */
  lemma PassingLedger(h: Handler, req: Request, id: string, depth: nat, w: Writer, l: Ledger)
    requires h.Wrap? && (h.mw.RequestID? || h.mw.CORS?) && !ShortCircuits(h.mw, req)
    ensures var id' := IdPast(h.mw, req, id, depth);
      var inner, r := Serve(h.next, req, id', depth + 1, WriterPast(h.mw, w, id')), Serve(h, req, id, depth, w);
      && r.writer == inner.writer && r.how == inner.how
      && PostAll(l, r.trace) == Post(PostAll(Post(l, Enter(depth, h.mw)), inner.trace), Exit(depth, h.mw, inner.how))
  {
    assert h == Wrap(h.mw, h.next);
    var id' := IdPast(h.mw, req, id, depth);
    var inner := Serve(h.next, req, id', depth + 1, WriterPast(h.mw, w, id'));
    ServeWrapped(h.mw, h.next, req, id, depth, w);
    PostLayer(l, Enter(depth, h.mw), inner.trace, [Exit(depth, h.mw, inner.how)]);
  }

  class Service {
    var log: seq<Event>
    var inFlight: int
    var total: seq<Event>

    ghost function Shown(): Ledger
      reads this
    {
      Ledger(log, inFlight, total)
    }

    constructor ()
      ensures Shown() == Ledger([], 0, [])
    {
      log, inFlight, total := [], 0, [];
    }

    /** The shared effect of one event, if it has one. */
    method Note(e: Event)
      modifies this
      ensures Shown() == Post(old(Shown()), e)
    {
      if e.Logged? { log := log + [e]; }
      if e.Counted? { total := total + [e]; }
      if e.Enter? && e.mw.Metrics? { inFlight := inFlight + 1; }
      if e.Exit? && e.mw.Metrics? && e.how.Returned? { inFlight := inFlight - 1; }
    }

    /** Runs a script on a writer, up to its end or its first panic. */
    method RunScript(actions: seq<Action>, w: ResponseWriter) returns (how: Ending)
      requires w.Valid()
      modifies w.Repr
      ensures (w.Value(), how) == Perform(actions, old(w.Value()))
    {
      for i := 0 to |actions|
        invariant Perform(actions, old(w.Value())) == Perform(actions[i..], w.Value())
      {
        assert actions[i..][1..] == actions[i + 1..];
        match actions[i]
        case SetCode(code) => w.SendHeader(code);
        case Body(len, room) => var _ := w.Send(len, room);
        case Panic => return Panicked;
      }
      return Returned;
    }

    /** The request has been served as `Serve` says, from writer `was` and ledger `before` on. */
    ghost predicate Agrees(h: Handler, req: Request, id: string, depth: nat, was: Writer, before: Ledger,
        w: ResponseWriter, how: Ending)
      requires w.Valid()
      reads this, w.Repr
    {
      var r := Serve(h, req, id, depth, was);
      w.Value() == r.writer && how == r.how && Shown() == PostAll(before, r.trace)
    }

    /** Serves one request: the recorders, the log, the gauge and the counter end as `Serve`
        says, event for event. */
    method ServeHTTP(h: Handler, req: Request, id: string, depth: nat, w: ResponseWriter) returns (how: Ending)
      requires w.Valid()
      modifies this, w.Repr
      ensures Agrees(h, req, id, depth, old(w.Value()), old(Shown()), w, how)
      decreases h, 1
    {
      match h
      case Script(actions) =>
        PostFew(Shown(), [Handled(id)]);
        Note(Handled(id));
        how := RunScript(actions, w);
      case Wrap(mw, next) =>
        match mw
        case RequestID => how := WithRequestID(h, req, id, depth, w);
        case Logger => how := WithLogger(h, req, id, depth, w);
        case Recover => how := WithRecover(h, req, id, depth, w);
        case CORS => how := WithCORS(h, req, id, depth, w);
        case Metrics => how := WithMetrics(h, req, id, depth, w);
    }

    method WithRequestID(h: Handler, req: Request, id: string, depth: nat, w: ResponseWriter) returns (how: Ending)
      requires w.Valid() && h.Wrap? && h.mw.RequestID?
      modifies this, w.Repr
      ensures Agrees(h, req, id, depth, old(w.Value()), old(Shown()), w, how)
      decreases h, 0
    {
      var chosen := req.idHeader;
      if chosen == "" {
        chosen := if depth < |req.draws| then req.draws[depth] else "";
      }
      ghost var inner := Serve(h.next, req, chosen, depth + 1, SetIdHeader(w.Value(), chosen));
      PassingLedger(h, req, id, depth, w.Value(), Shown());
      Note(Enter(depth, h.mw));
      w.SetHeader(chosen);
      how := ServeHTTP(h.next, req, chosen, depth + 1, w);
      assert w.Value() == inner.writer;
      Note(Exit(depth, h.mw, how));
    }

    /** Serves the handler inside through a new recorder, and reads the recorder afterwards. */
    method ServeRecorded(kind: Kind, next: Handler, req: Request, id: string, depth: nat, w: ResponseWriter)
      returns (how: Ending, status: nat, size: nat)
      requires w.Valid() && !kind.Connection?
      modifies this, w.Repr
      ensures var was := old(w.Value());
        var start := if kind.LoggingRecorder? then Logging(200, 0, was) else Counting(200, was);
        var inner := Serve(next, req, id, depth, start);
        && inner.writer ==
             (if kind.LoggingRecorder? then Logging(status, size, w.Value()) else Counting(status, w.Value()))
        && how == inner.how && Shown() == PostAll(old(Shown()), inner.trace)
      decreases next, 2
    {
      var recorder := new ResponseWriter.Record(kind, w);
      how := ServeHTTP(next, req, id, depth, recorder);
      status, size := recorder.status, recorder.size;
    }

    method WithLogger(h: Handler, req: Request, id: string, depth: nat, w: ResponseWriter) returns (how: Ending)
      requires w.Valid() && h.Wrap? && h.mw.Logger?
      modifies this, w.Repr
      ensures Agrees(h, req, id, depth, old(w.Value()), old(Shown()), w, how)
      decreases h, 0
    {
      LoggerLedger(h, req, id, depth, w.Value(), Shown());
      Note(Enter(depth, h.mw));
      var status, size;
      how, status, size := ServeRecorded(LoggingRecorder, h.next, req, id, depth + 1, w);
      Note(Exit(depth, h.mw, how));
      if how.Returned? {
        Note(Logged(depth, status, size, id));
      }
    }

    method WithRecover(h: Handler, req: Request, id: string, depth: nat, w: ResponseWriter) returns (how: Ending)
      requires w.Valid() && h.Wrap? && h.mw.Recover?
      modifies this, w.Repr
      ensures Agrees(h, req, id, depth, old(w.Value()), old(Shown()), w, how)
      decreases h, 0
    {
      ghost var inner := Serve(h.next, req, id, depth + 1, w.Value());
      RecoverLedger(h, req, id, depth, w.Value(), Shown());
      Note(Enter(depth, h.mw));
      how := ServeHTTP(h.next, req, id, depth + 1, w);
      assert w.Value() == inner.writer;
      Note(Exit(depth, h.mw, how));
      if how.Panicked? {
        Note(Recovered(depth, id));
        w.SendErrorPage(req.errorRoom);
        how := Returned;
      }
    }

    method WithCORS(h: Handler, req: Request, id: string, depth: nat, w: ResponseWriter) returns (how: Ending)
      requires w.Valid() && h.Wrap? && h.mw.CORS?
      modifies this, w.Repr
      ensures Agrees(h, req, id, depth, old(w.Value()), old(Shown()), w, how)
      decreases h, 0
    {
      if req.verb == "OPTIONS" {
        PostFew(Shown(), [Enter(depth, h.mw), Exit(depth, h.mw, Returned)]);
        Note(Enter(depth, h.mw));
        w.SendHeader(204);
        Note(Exit(depth, h.mw, Returned));
        return Returned;
      }
      ghost var inner := Serve(h.next, req, id, depth + 1, w.Value());
      PassingLedger(h, req, id, depth, w.Value(), Shown());
      Note(Enter(depth, h.mw));
      how := ServeHTTP(h.next, req, id, depth + 1, w);
      Note(Exit(depth, h.mw, how));
    }

    method WithMetrics(h: Handler, req: Request, id: string, depth: nat, w: ResponseWriter) returns (how: Ending)
      requires w.Valid() && h.Wrap? && h.mw.Metrics?
      modifies this, w.Repr
      ensures Agrees(h, req, id, depth, old(w.Value()), old(Shown()), w, how)
      decreases h, 0
    {
      MetricsLedger(h, req, id, depth, w.Value(), Shown());
      Note(Enter(depth, h.mw));
      var status, size;
      how, status, size := ServeRecorded(CountingRecorder, h.next, req, id, depth + 1, w);
      Note(Exit(depth, h.mw, how));
      if how.Returned? {
        Note(Counted(req.verb, req.path, status));
      }
    }

    /** One request through the standard stack on a new connection: no panic gets out; the log
        gains one entry, with the id the handler saw, the bytes the connection took and the
        status the script decides; the counter gains the same status for a handler that
        returned, and nothing otherwise; a panic leaves the gauge one up. */
    method ServeStandard(req: Request, actions: seq<Action>, w: ResponseWriter)
      returns (how: Ending, ghost entry: Event)
      requires w.Valid() && w.Value() == Fresh()
      modifies this, w.Repr
      ensures how.Returned? && entry.Logged? && log == old(log) + [entry]
      ensures entry.bytes == WireOf(w.Value()).bytes && entry.id == WireOf(w.Value()).idHeader
      ensures req.idHeader != "" ==> entry.id == req.idHeader
      ensures req.verb == "OPTIONS" ==> entry.status == 204
      ensures Breaks(req, actions) ==> entry.status == 500
      ensures req.verb != "OPTIONS" && !Breaks(req, actions) ==> StatusByScript(actions, entry.status)
      ensures total == old(total) +
        (if req.verb == "OPTIONS" || Breaks(req, actions) then [] else [Counted(req.verb, req.path, entry.status)])
      ensures inFlight == old(inFlight) + if Breaks(req, actions) then 1 else 0
    {
      var h := Chain(STANDARD, Script(actions));
      entry := StandardLedger(req, actions, Shown());
      StandardRequest(req, actions);
      IncomingIdIsKept(req, actions);
      if req.verb == "OPTIONS" {
        PreflightAnswer(req, actions);
      } else {
        RequestByScript(req, actions);
      }
      how := ServeHTTP(h, req, "", 0, w);
    }
  }
}
