/** HTTP handlers as data: a final handler is a script of calls on its response writer, and
    a middleware wraps a handler.  `Serve` says what a wrapped handler does to the writer it
    is given, how it ends, and which observable events it causes, in order. */
module Handlers {
  import opened Platform

  // ---------- Response writers ----------

  /** The connection's own writer: the request id header it carries, the status it has sent,
      if any, and the body bytes it has accepted. */
  datatype Wire = Wire(idHeader: string, status: Option<nat>, bytes: nat)

  /** A writer is the wire under any number of recorders, outermost constructor first. */
  datatype Writer =
    | Bottom(wire: Wire)
    | Logging(status: nat, size: nat, inner: Writer)
    | Counting(status: nat, inner: Writer)

  function Fresh(): Writer { Bottom(Wire("", None, 0)) }

  function WireOf(w: Writer): Wire {
    if w.Bottom? then w.wire else WireOf(w.inner)
  }

  /** Headers go to the wire; they are frozen once the status is out. */
  function SetIdHeader(w: Writer, id: string): Writer {
    match w
    case Bottom(wire) => Bottom(if wire.status.None? then wire.(idHeader := id) else wire)
    case Logging(s, n, inner) => Logging(s, n, SetIdHeader(inner, id))
    case Counting(s, inner) => Counting(s, SetIdHeader(inner, id))
  }

  /** The wire sends the first status only; every recorder keeps the last. */
  function WriteHeader(w: Writer, code: nat): Writer {
    match w
    case Bottom(wire) => Bottom(if wire.status.None? then wire.(status := Some(code)) else wire)
    case Logging(_, n, inner) => Logging(code, n, WriteHeader(inner, code))
    case Counting(_, inner) => Counting(code, WriteHeader(inner, code))
  }

  predicate BodyAllowed(status: nat) { status != 204 && status != 304 }

  /** How many of `len` offered bytes the wire takes, when the connection has `room`. */
  function Accepted(w: Writer, len: nat, room: nat): nat {
    var status := if WireOf(w).status.Some? then WireOf(w).status.value else 200;
    if !BodyAllowed(status) then 0 else if len <= room then len else room
  }

  /** A body write implies status 200 on the wire; only logging recorders count bytes. */
  function Write(w: Writer, len: nat, room: nat): Writer {
    match w
    case Bottom(wire) =>
      Bottom(wire.(status := if wire.status.None? then Some(200) else wire.status,
                   bytes := wire.bytes + Accepted(w, len, room)))
    case Logging(s, n, inner) => Logging(s, n + Accepted(inner, len, room), Write(inner, len, room))
    case Counting(s, inner) => Counting(s, Write(inner, len, room))
  }

  /** Which recorders wrap the wire: true for a logging one, false for a counting one. */
  function Shape(w: Writer): seq<bool> {
    match w
    case Bottom(_) => []
    case Logging(_, _, inner) => [true] + Shape(inner)
    case Counting(_, inner) => [false] + Shape(inner)
  }

  // ---------- Handlers ----------

  type Code = c: nat | 200 <= c <= 599 witness 200

  datatype Action = SetCode(code: Code) | Body(len: nat, room: nat) | Panic

  datatype Middleware = RequestID | Logger | Recover | CORS | Metrics

  datatype Handler = Script(actions: seq<Action>) | Wrap(mw: Middleware, next: Handler)

  /** `idHeader` is the incoming request id, empty when absent; `draws` are the ids the random
      generator would give at each layer; `errorRoom` is what the connection would still take
      of an error page. */
  datatype Request = Request(verb: string, path: string, idHeader: string, draws: seq<string>, errorRoom: nat)

  datatype Ending = Returned | Panicked

  datatype Event =
    | Enter(depth: nat, mw: Middleware)
    | Exit(depth: nat, mw: Middleware, how: Ending)
    | Handled(id: string)
    | Logged(depth: nat, status: nat, bytes: nat, id: string)
    | Recovered(depth: nat, id: string)
    | Counted(verb: string, path: string, status: nat)

  datatype Served = Served(writer: Writer, how: Ending, trace: seq<Event>)

  const ERROR_PAGE := "{\"error\":{\"code\":\"internal_error\",\"message\":\"internal server error\"}}\n"

  /** The error page a recovered panic is answered with. */
  function SendError(w: Writer, room: nat): Writer {
    Write(WriteHeader(w, 500), |ERROR_PAGE|, room)
  }

  function Act(w: Writer, a: Action): Writer
    requires !a.Panic?
  {
    if a.SetCode? then WriteHeader(w, a.code) else Write(w, a.len, a.room)
  }

  function Perform(actions: seq<Action>, w: Writer): (Writer, Ending) {
    if actions == [] then (w, Returned)
    else if actions[0].Panic? then (w, Panicked)
    else Perform(actions[1..], Act(w, actions[0]))
  }

  function ChooseId(req: Request, depth: nat): string {
    if req.idHeader != "" then req.idHeader
    else if depth < |req.draws| then req.draws[depth] else ""
  }

  predicate ShortCircuits(mw: Middleware, req: Request) { mw.CORS? && req.verb == "OPTIONS" }

  /** The context id a layer passes on. */
  function IdPast(mw: Middleware, req: Request, id: string, depth: nat): string {
    if mw.RequestID? then ChooseId(req, depth) else id
  }

  /** The writer a layer passes on. */
  function WriterPast(mw: Middleware, w: Writer, id: string): Writer {
    match mw
    case RequestID => SetIdHeader(w, id)
    case Logger => Logging(200, 0, w)
    case Metrics => Counting(200, w)
    case _ => w
  }

  /** What a layer does once the handler inside has ended. */
  function Unwind(mw: Middleware, req: Request, id: string, depth: nat, inner: Served): Served
    requires mw.Logger? ==> inner.writer.Logging?
    requires mw.Metrics? ==> inner.writer.Counting?
  {
    var left := [Exit(depth, mw, inner.how)];
    match mw
    case Logger =>
      Served(inner.writer.inner, inner.how, left +
        if inner.how.Returned? then [Logged(depth, inner.writer.status, inner.writer.size, id)] else [])
    case Recover =>
      if inner.how.Returned? then Served(inner.writer, Returned, left)
      else Served(SendError(inner.writer, req.errorRoom), Returned, left + [Recovered(depth, id)])
    case Metrics =>
      Served(inner.writer.inner, inner.how, left +
        if inner.how.Returned? then [Counted(req.verb, req.path, inner.writer.status)] else [])
    case _ => Served(inner.writer, inner.how, left)
  }

  lemma SetIdHeaderKeepsShape(w: Writer, id: string)
    ensures Shape(SetIdHeader(w, id)) == Shape(w)
  {
  }

  lemma ActKeepsShape(w: Writer, a: Action)
    requires !a.Panic?
    ensures Shape(Act(w, a)) == Shape(w)
  {
    match w
    case Bottom(_) =>
    case Logging(_, _, inner) => ActKeepsShape(inner, a);
    case Counting(_, inner) => ActKeepsShape(inner, a);
  }

  lemma SendErrorKeepsShape(w: Writer, room: nat)
    ensures Shape(SendError(w, room)) == Shape(w)
  {
    ActKeepsShape(w, SetCode(500));
    ActKeepsShape(WriteHeader(w, 500), Body(|ERROR_PAGE|, room));
  }

  lemma PerformKeepsShape(actions: seq<Action>, w: Writer)
    ensures Shape(Perform(actions, w).0) == Shape(w)
    decreases actions
  {
    if actions != [] && !actions[0].Panic? {
      ActKeepsShape(w, actions[0]);
      PerformKeepsShape(actions[1..], Act(w, actions[0]));
    }
  }

  function Serve(h: Handler, req: Request, id: string, depth: nat, w: Writer): (r: Served)
    ensures Shape(r.writer) == Shape(w)
    decreases h
  {
    match h
    case Script(actions) =>
      PerformKeepsShape(actions, w);
      var (w', how) := Perform(actions, w);
      Served(w', how, [Handled(id)])
    case Wrap(mw, next) =>
      if ShortCircuits(mw, req) then
        ActKeepsShape(w, SetCode(204));
        Served(WriteHeader(w, 204), Returned, [Enter(depth, mw), Exit(depth, mw, Returned)])
      else
        var id' := IdPast(mw, req, id, depth);
        SetIdHeaderKeepsShape(w, id');
        var inner := Serve(next, req, id', depth + 1, WriterPast(mw, w, id'));
        SendErrorKeepsShape(inner.writer, req.errorRoom);
        assert mw.Logger? || mw.Metrics? ==> Shape(inner.writer)[1..] == Shape(w);
        var out := Unwind(mw, req, id, depth, inner);
        Served(out.writer, out.how, [Enter(depth, mw)] + inner.trace + out.trace)
  }

  /** Serving a wrapped handler, layer by layer. */
  lemma ServeWrapped(mw: Middleware, next: Handler, req: Request, id: string, depth: nat, w: Writer)
    requires !ShortCircuits(mw, req)
    ensures var id' := IdPast(mw, req, id, depth);
      var inner := Serve(next, req, id', depth + 1, WriterPast(mw, w, id'));
      && (mw.Logger? ==> inner.writer.Logging?) && (mw.Metrics? ==> inner.writer.Counting?)
      && var out := Unwind(mw, req, id, depth, inner);
      Serve(Wrap(mw, next), req, id, depth, w)
        == Served(out.writer, out.how, [Enter(depth, mw)] + inner.trace + out.trace)
  {
    var inner := Serve(next, req, IdPast(mw, req, id, depth), depth + 1, WriterPast(mw, w, IdPast(mw, req, id, depth)));
    assert mw.Logger? ==> Shape(inner.writer)[0];
    assert mw.Metrics? ==> !Shape(inner.writer)[0];
  }

  // ---------- Chains ----------

  /** The first middleware is outermost. */
  function Compose(mws: seq<Middleware>, final: Handler): Handler {
    if mws == [] then final else Wrap(mws[0], Compose(mws[1..], final))
  }

  /** The loop that builds a chain: it wraps from the last middleware to the first. */
  method Chain(mws: seq<Middleware>, final: Handler) returns (h: Handler)
    ensures h == Compose(mws, final)
  {
    h := final;
    var i := |mws|;
    while i > 0
      invariant 0 <= i <= |mws|
      invariant h == Compose(mws[i..], final)
    {
      i := i - 1;
      h := Wrap(mws[i], h);
      assert mws[i..][1..] == mws[i + 1..];
    }
    assert mws[0..] == mws;
  }

  /** A chain of two chains is the first around the second, and no middleware changes nothing. */
  lemma {:induction false} ComposeConcat(a: seq<Middleware>, b: seq<Middleware>, final: Handler)
    ensures Compose(a + b, final) == Compose(a, Compose(b, final))
    ensures Compose([], final) == final
  {
    if a == [] {
      assert a + b == b;
    } else {
      assert (a + b)[1..] == a[1..] + b;
      ComposeConcat(a[1..], b, final);
    }
  }
}
