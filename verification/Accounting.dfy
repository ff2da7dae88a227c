/** What a chain of middlewares accounts for, for every chain and every handler script. */
module Accounting {
  import opened Platform
  import opened Handlers

  // ---------- Scripts ----------

  /** What a script gets to do before it panics, if it does. */
  function Executed(actions: seq<Action>): seq<Action> {
    if actions == [] || actions[0].Panic? then [] else [actions[0]] + Executed(actions[1..])
  }

  predicate Panics(actions: seq<Action>) {
    exists i :: 0 <= i < |actions| && actions[i].Panic?
  }

  /** The last status a script asked for, if any: what a recorder remembers. */
  function LastCode(done: seq<Action>): Option<nat> {
    if done == [] then None
    else if done[|done| - 1].SetCode? then Some(done[|done| - 1].code)
    else LastCode(done[..|done| - 1])
  }

  /** The status that takes effect, if any: the first asked for, or 200 at the first body write. */
  function FirstStatus(done: seq<Action>): Option<nat> {
    if done == [] then None
    else if done[0].SetCode? then Some(done[0].code)
    else if done[0].Body? then Some(200)
    else FirstStatus(done[1..])
  }

  function Or(a: Option<nat>, b: Option<nat>): Option<nat> { if a.Some? then a else b }

  function GetOr(a: Option<nat>, d: nat): nat { if a.Some? then a.value else d }

  // ---------- Recorders ----------

  /** The statuses the recorders of a writer hold, outermost first. */
  function Statuses(w: Writer): seq<nat> {
    if w.Bottom? then [] else [w.status] + Statuses(w.inner)
  }

  /** The sizes its logging recorders hold, outermost first. */
  function Sizes(w: Writer): seq<nat> {
    match w
    case Bottom(_) => []
    case Logging(_, n, inner) => [n] + Sizes(inner)
    case Counting(_, inner) => Sizes(inner)
  }

  /** w' is w after activity in which the wire took `grown` more bytes, the last status asked
      for was `last` and the first to take effect was `first`: every recorder has counted
      exactly those bytes and remembers `last`; the wire sends `first`, unless it had sent
      one before. */
  ghost predicate Records(w: Writer, w': Writer, grown: nat, last: Option<nat>, first: Option<nat>) {
    && Shape(w') == Shape(w)
    && WireOf(w').bytes == WireOf(w).bytes + grown
    && WireOf(w').status == Or(WireOf(w).status, first)
    && |Sizes(w')| == |Sizes(w)| && (forall i | 0 <= i < |Sizes(w)| :: Sizes(w')[i] == Sizes(w)[i] + grown)
    && |Statuses(w')| == |Statuses(w)|
    && (forall i | 0 <= i < |Statuses(w)| :: Statuses(w')[i] == GetOr(last, Statuses(w)[i]))
  }

  function CodeOf(a: Action): Option<nat> { if a.SetCode? then Some(a.code) else None }

  function StatusOf(a: Action): Option<nat> {
    match a
    case SetCode(c) => Some(c)
    case Body(_, _) => Some(200)
    case Panic => None
  }

  lemma {:induction false} ActRecords(w: Writer, a: Action)
    requires !a.Panic?
    ensures Records(w, Act(w, a), if a.Body? then Accepted(w, a.len, a.room) else 0, CodeOf(a), StatusOf(a))
  {
    match w
    case Bottom(_) =>
    case Logging(_, _, inner) =>
      ActRecords(inner, a);
      assert Shape(Act(w, a)) == [true] + Shape(Act(inner, a));
    case Counting(_, inner) =>
      ActRecords(inner, a);
      assert Shape(Act(w, a)) == [false] + Shape(Act(inner, a));
  }

  lemma RecordsCompose(w: Writer, v: Writer, u: Writer,
      g: nat, l: Option<nat>, f: Option<nat>, g': nat, l': Option<nat>, f': Option<nat>)
    requires Records(w, v, g, l, f) && Records(v, u, g', l', f')
    ensures Records(w, u, g + g', Or(l', l), Or(f, f'))
  {
  }

  /** The bytes the wire takes from a script. */
  function Grown(actions: seq<Action>, w: Writer): int {
    WireOf(Perform(actions, w).0).bytes - WireOf(w).bytes
  }

  lemma {:induction false} LastCodeCons(a: Action, rest: seq<Action>)
    ensures LastCode([a] + rest) == Or(LastCode(rest), CodeOf(a))
  {
    if rest == [] {
      assert [a] + rest == [a];
      assert [a][..0] == [];
    } else {
      var n := |rest|;
      assert ([a] + rest)[..n] == [a] + rest[..n - 1];
      LastCodeCons(a, rest[..n - 1]);
    }
  }

  lemma PanicsCons(actions: seq<Action>)
    requires actions != [] && !actions[0].Panic?
    ensures Panics(actions) <==> Panics(actions[1..])
  {
    var rest := actions[1..];
    if Panics(rest) {
      var i :| 0 <= i < |rest| && rest[i].Panic?;
      assert actions[i + 1].Panic?;
    }
    assert forall i | 0 < i < |actions| :: actions[i] == rest[i - 1];
  }

  /** What one more action in front changes about a script. */
  lemma ScriptCons(actions: seq<Action>)
    requires actions != [] && !actions[0].Panic?
    ensures LastCode(Executed(actions)) == Or(LastCode(Executed(actions[1..])), CodeOf(actions[0]))
    ensures FirstStatus(Executed(actions)) == Or(StatusOf(actions[0]), FirstStatus(Executed(actions[1..])))
    ensures Panics(actions) <==> Panics(actions[1..])
  {
    var rest := actions[1..];
    LastCodeCons(actions[0], Executed(rest));
    assert Executed(actions)[1..] == Executed(rest);
    PanicsCons(actions);
  }

  /** Recorder against wire, for every script and every stack of recorders. */
  lemma {:induction false} ScriptRecords(actions: seq<Action>, w: Writer)
    ensures Grown(actions, w) >= 0
    ensures Records(w, Perform(actions, w).0, Grown(actions, w),
      LastCode(Executed(actions)), FirstStatus(Executed(actions)))
    ensures Perform(actions, w).1.Panicked? <==> Panics(actions)
    decreases actions
  {
    if actions != [] {
      if actions[0].Panic? {
        assert Panics(actions);
      } else {
        var v, rest := Act(w, actions[0]), actions[1..];
        ActRecords(w, actions[0]);
        ScriptRecords(rest, v);
        ScriptCons(actions);
        RecordsCompose(w, v, Perform(rest, v).0,
          WireOf(v).bytes - WireOf(w).bytes, CodeOf(actions[0]), StatusOf(actions[0]),
          Grown(rest, v), LastCode(Executed(rest)), FirstStatus(Executed(rest)));
      }
    }
  }

  /** What a recorder made for the script remembers, and what the wire sends, in the end. */
  function Recorded(actions: seq<Action>): nat { GetOr(LastCode(Executed(actions)), 200) }

  function Sent(actions: seq<Action>): nat { GetOr(FirstStatus(Executed(actions)), 200) }

  lemma {:induction false} NoCodeNoMemory(done: seq<Action>)
    requires forall i | 0 <= i < |done| :: !done[i].SetCode?
    ensures LastCode(done).None?
  {
    if done != [] { NoCodeNoMemory(done[..|done| - 1]); }
  }

  /** What a script gets to do is what stands before its first panic. */
  lemma {:induction false} ExecutedIsPrefix(actions: seq<Action>)
    ensures Executed(actions) <= actions
    ensures forall i | 0 <= i < |Executed(actions)| :: !actions[i].Panic?
    ensures |Executed(actions)| == |actions| || actions[|Executed(actions)|].Panic?
  {
    if actions != [] && !actions[0].Panic? {
      ExecutedIsPrefix(actions[1..]);
      assert forall i | 0 < i < |Executed(actions)| :: actions[i] == actions[1..][i - 1];
    }
  }

  /** They agree for a script that sets the status at most once, and before any body write. */
  lemma WellBehavedScriptsAgree(actions: seq<Action>)
    requires forall i | 0 < i < |Executed(actions)| :: !Executed(actions)[i].SetCode?
    ensures Recorded(actions) == Sent(actions)
  {
    var done := Executed(actions);
    if done != [] {
      NoCodeNoMemory(done[1..]);
      assert done == [done[0]] + done[1..];
      LastCodeCons(done[0], done[1..]);
      ExecutedNeverPanics(actions, 0);
    }
  }

  lemma {:induction false} ExecutedNeverPanics(actions: seq<Action>, i: nat)
    requires i < |Executed(actions)|
    ensures !Executed(actions)[i].Panic?
    decreases actions
  {
    if i > 0 { ExecutedNeverPanics(actions[1..], i - 1); }
  }

  /** And in general: they disagree exactly when the script's last status request comes too
      late to take effect and asks for something else than what was sent. */
  lemma DisagreementIsLateRequest(actions: seq<Action>)
    ensures Recorded(actions) != Sent(actions) <==>
      var done := Executed(actions);
      exists i :: 0 < i < |done| && done[i].SetCode? && (forall j | i < j < |done| :: !done[j].SetCode?)
        && done[i].code != (if done[0].SetCode? then done[0].code else 200)
  {
    var done := Executed(actions);
    if done != [] {
      ExecutedNeverPanics(actions, 0);
      LastCodeIndex(done);
    }
  }

  lemma {:induction false} LastCodeIndex(done: seq<Action>)
    ensures LastCode(done).None? ==> forall i | 0 <= i < |done| :: !done[i].SetCode?
    ensures LastCode(done).Some? ==> exists i ::
      && 0 <= i < |done| && done[i].SetCode? && done[i].code == LastCode(done).value
      && (forall j | i < j < |done| :: !done[j].SetCode?)
  {
    if done != [] && !done[|done| - 1].SetCode? {
      var front := done[..|done| - 1];
      LastCodeIndex(front);
      if LastCode(front).Some? {
        var i :| 0 <= i < |front| && front[i].SetCode?
          && front[i].code == LastCode(front).value && forall j | i < j < |front| :: !front[j].SetCode?;
        assert done[i].SetCode?;
      }
    }
  }

  /** A recorder made for a script that does not panic remembers its last status request, or
      200 if it made none; the wire sends the status the script begins with, or 200. */
  lemma RecordedAndSent(actions: seq<Action>)
    requires forall i | 0 <= i < |actions| :: !actions[i].Panic?
    ensures forall i | 0 <= i < |actions| && actions[i].SetCode?
        && (forall j | i < j < |actions| :: !actions[j].SetCode?) ::
      Recorded(actions) == actions[i].code
    ensures (forall i | 0 <= i < |actions| :: !actions[i].SetCode?) ==> Recorded(actions) == 200
    ensures Sent(actions) == if actions != [] && actions[0].SetCode? then actions[0].code else 200
  {
    ExecutedIsPrefix(actions);
    assert Executed(actions) == actions;
    LastCodeIndex(actions);
  }

  /** A body write adds what is offered, up to what the connection takes, and nothing under a
      status that has no body. */
  lemma {:induction false} WriteAdds(w: Writer, len: nat, room: nat)
    ensures WireOf(Write(w, len, room)).bytes ==
      WireOf(w).bytes + if WireOf(w).status in {Some(204), Some(304)} then 0 else if len <= room then len else room
    ensures WireOf(Write(w, len, room)).status == if WireOf(w).status == None then Some(200) else WireOf(w).status
  {
    if !w.Bottom? { WriteAdds(w.inner, len, room); }
  }

  lemma {:induction false} HeaderAdds(w: Writer, code: nat)
    ensures WireOf(WriteHeader(w, code)).bytes == WireOf(w).bytes
    ensures WireOf(WriteHeader(w, code)).status == if WireOf(w).status == None then Some(code) else WireOf(w).status
  {
    if !w.Bottom? { HeaderAdds(w.inner, code); }
  }

  /** A header is set until the status has gone out, and frozen from then on. */
  lemma {:induction false} HeaderFreezes(w: Writer, id: string)
    ensures WireOf(SetIdHeader(w, id)).idHeader == if WireOf(w).status == None then id else WireOf(w).idHeader
  {
    if !w.Bottom? { HeaderFreezes(w.inner, id); }
  }

  function BodyLength(actions: seq<Action>): nat {
    if actions == [] then 0 else (if actions[0].Body? then actions[0].len else 0) + BodyLength(actions[1..])
  }

  /** On a connection that takes all it is offered, a script that does not panic and asks for
      no bodiless status has its whole body sent. */
  lemma {:induction false} WholeBodyIsSent(actions: seq<Action>, w: Writer)
    requires forall i | 0 <= i < |actions| :: !actions[i].Panic?
    requires forall i | 0 <= i < |actions| && actions[i].Body? :: actions[i].len <= actions[i].room
    requires forall i | 0 <= i < |actions| && actions[i].SetCode? :: actions[i].code !in {204, 304}
    requires WireOf(w).status !in {Some(204), Some(304)}
    ensures WireOf(Perform(actions, w).0).bytes == WireOf(w).bytes + BodyLength(actions)
    decreases actions
  {
    if actions != [] {
      var a := actions[0];
      if a.SetCode? { HeaderAdds(w, a.code); } else { WriteAdds(w, a.len, a.room); }
      WholeBodyIsSent(actions[1..], Act(w, a));
    }
  }

  // ---------- Chains ----------

  /** Nobody on the way answers in the handler's place. */
  predicate Reaches(mws: seq<Middleware>, req: Request) {
    forall mw | mw in mws :: !ShortCircuits(mw, req)
  }

  /** A panic gets out of these layers. */
  predicate Escapes(mws: seq<Middleware>, req: Request, actions: seq<Action>) {
    Reaches(mws, req) && Panics(actions) && Recover !in mws
  }

  predicate Rescued(mws: seq<Middleware>, req: Request, actions: seq<Action>) {
    Reaches(mws, req) && Panics(actions) && Recover in mws
  }

  /** The last status asked for anywhere inside the chain. */
  function LastOf(mws: seq<Middleware>, req: Request, actions: seq<Action>): Option<nat> {
    if !Reaches(mws, req) then Some(204)
    else if Rescued(mws, req, actions) then Some(500)
    else LastCode(Executed(actions))
  }

  /** The first status to take effect. */
  function FirstOf(mws: seq<Middleware>, req: Request, actions: seq<Action>): Option<nat> {
    if !Reaches(mws, req) then Some(204)
    else if Rescued(mws, req, actions) then Or(FirstStatus(Executed(actions)), Some(500))
    else FirstStatus(Executed(actions))
  }

  function Run(mws: seq<Middleware>, actions: seq<Action>, req: Request, id: string, depth: nat, w: Writer): Served {
    Serve(Compose(mws, Script(actions)), req, id, depth, w)
  }

  function BytesOf(w: Writer, r: Served): int { WireOf(r.writer).bytes - WireOf(w).bytes }

  /** The run inside the outermost layer. */
  function Inside(mws: seq<Middleware>, actions: seq<Action>, req: Request, id: string, depth: nat, w: Writer): Served
    requires mws != []
  {
    var id' := IdPast(mws[0], req, id, depth);
    Run(mws[1..], actions, req, id', depth + 1, WriterPast(mws[0], w, id'))
  }

  lemma SetIdHeaderRecords(w: Writer, id: string)
    ensures Records(w, SetIdHeader(w, id), 0, None, None)
  {
  }

  lemma SendErrorRecords(w: Writer, room: nat)
    ensures WireOf(SendError(w, room)).bytes >= WireOf(w).bytes
    ensures Records(w, SendError(w, room), WireOf(SendError(w, room)).bytes - WireOf(w).bytes, Some(500), Some(500))
  {
    var page := Body(|ERROR_PAGE|, room);
    ActRecords(w, SetCode(500));
    ActRecords(WriteHeader(w, 500), page);
    RecordsCompose(w, WriteHeader(w, 500), SendError(w, room), 0, Some(500), Some(500),
      Accepted(WriteHeader(w, 500), |ERROR_PAGE|, room), None, Some(200));
  }

  /** The error page is 70 bytes under a 500, where no status has gone out. */
  lemma ErrorPageIsSent(w: Writer, room: nat)
    requires WireOf(w).status == None
    ensures WireOf(SendError(w, room)).status == Some(500)
    ensures WireOf(SendError(w, room)).bytes == WireOf(w).bytes + if room >= 70 then 70 else room
  {
    HeaderAdds(w, 500);
    WriteAdds(WriteHeader(w, 500), |ERROR_PAGE|, room);
  }

  /** Taking a recorder off again: it holds the bytes and the last status of what went on. */
  lemma RecordsUnwrap(mw: Middleware, w: Writer, u: Writer, g: nat, l: Option<nat>, f: Option<nat>)
    requires mw.Logger? || mw.Metrics?
    requires Records(WriterPast(mw, w, ""), u, g, l, f)
    ensures if mw.Logger? then u.Logging? && u.size == g else u.Counting?
    ensures u.status == GetOr(l, 200)
    ensures Records(w, u.inner, g, l, f)
  {
    var v := WriterPast(mw, w, "");
    assert Shape(v)[1..] == Shape(w);
    assert u.status == Statuses(u)[0] && u.status == GetOr(l, Statuses(v)[0]);
    forall i | 0 <= i < |Statuses(w)| ensures Statuses(u.inner)[i] == GetOr(l, Statuses(w)[i]) {
      assert Statuses(u)[i + 1] == GetOr(l, Statuses(v)[i + 1]);
    }
    if mw.Logger? {
      assert u.size == Sizes(u)[0] && u.size == Sizes(v)[0] + g;
      forall i | 0 <= i < |Sizes(w)| ensures Sizes(u.inner)[i] == Sizes(w)[i] + g {
        assert Sizes(u)[i + 1] == Sizes(v)[i + 1] + g;
      }
    }
  }

  /** How a run ends, and what it leaves on the wire and in every recorder around it. */
  ghost predicate Accounted(
    mws: seq<Middleware>, actions: seq<Action>, req: Request, id: string, depth: nat, w: Writer)
  {
    var r := Run(mws, actions, req, id, depth, w);
    && (r.how.Panicked? <==> Escapes(mws, req, actions))
    && BytesOf(w, r) >= 0
    && Records(w, r.writer, BytesOf(w, r), LastOf(mws, req, actions), FirstOf(mws, req, actions))
  }

  ghost predicate InsideAccounted(
    mws: seq<Middleware>, actions: seq<Action>, req: Request, id: string, depth: nat, w: Writer)
    requires mws != []
  {
    var id' := IdPast(mws[0], req, id, depth);
    Accounted(mws[1..], actions, req, id', depth + 1, WriterPast(mws[0], w, id'))
  }

  lemma RecorderLayer(mws: seq<Middleware>, actions: seq<Action>, req: Request, id: string, depth: nat, w: Writer)
    requires mws != [] && (mws[0].Logger? || mws[0].Metrics?) && InsideAccounted(mws, actions, req, id, depth, w)
    ensures Accounted(mws, actions, req, id, depth, w)
  {
    var mw, rest := mws[0], mws[1..];
    var v, inner := WriterPast(mw, w, id), Inside(mws, actions, req, id, depth, w);
    assert forall m :: m in mws <==> m == mw || m in rest;
    RecordsUnwrap(mw, w, inner.writer, BytesOf(v, inner), LastOf(rest, req, actions), FirstOf(rest, req, actions));
  }

  lemma IdLayer(mws: seq<Middleware>, actions: seq<Action>, req: Request, id: string, depth: nat, w: Writer)
    requires mws != [] && mws[0].RequestID? && InsideAccounted(mws, actions, req, id, depth, w)
    ensures Accounted(mws, actions, req, id, depth, w)
  {
    var rest, id' := mws[1..], IdPast(mws[0], req, id, depth);
    var v, inner := SetIdHeader(w, id'), Inside(mws, actions, req, id, depth, w);
    assert forall m :: m in mws <==> m == mws[0] || m in rest;
    SetIdHeaderRecords(w, id');
    RecordsCompose(w, v, inner.writer, 0, None, None,
      BytesOf(v, inner), LastOf(rest, req, actions), FirstOf(rest, req, actions));
  }

  lemma RecoverLayer(mws: seq<Middleware>, actions: seq<Action>, req: Request, id: string, depth: nat, w: Writer)
    requires mws != [] && mws[0].Recover? && InsideAccounted(mws, actions, req, id, depth, w)
    ensures Accounted(mws, actions, req, id, depth, w)
  {
    var rest, inner := mws[1..], Inside(mws, actions, req, id, depth, w);
    assert forall m :: m in mws <==> m == mws[0] || m in rest;
    if inner.how.Panicked? {
      SendErrorRecords(inner.writer, req.errorRoom);
      var u := SendError(inner.writer, req.errorRoom);
      RecordsCompose(w, inner.writer, u, BytesOf(w, inner), LastOf(rest, req, actions), FirstOf(rest, req, actions),
        WireOf(u).bytes - WireOf(inner.writer).bytes, Some(500), Some(500));
    }
  }

  lemma CORSLayer(mws: seq<Middleware>, actions: seq<Action>, req: Request, id: string, depth: nat, w: Writer)
    requires mws != [] && mws[0].CORS? && !ShortCircuits(mws[0], req)
    requires InsideAccounted(mws, actions, req, id, depth, w)
    ensures Accounted(mws, actions, req, id, depth, w)
  {
    assert forall m :: m in mws <==> m == mws[0] || m in mws[1..];
  }

  /** For every chain, script and writer: a run panics exactly when the handler is reached,
      panics, and no layer recovers; every recorder around it has counted exactly the bytes
      the wire took and remembers the last status asked for, while the wire sends the first. */
  lemma {:induction false} ChainRecords(
    mws: seq<Middleware>, actions: seq<Action>, req: Request, id: string, depth: nat, w: Writer)
    ensures Accounted(mws, actions, req, id, depth, w)
    decreases mws
  {
    if mws == [] {
      ScriptRecords(actions, w);
    } else if ShortCircuits(mws[0], req) {
      ActRecords(w, SetCode(204));
      assert mws[0] in mws;
    } else {
      var id' := IdPast(mws[0], req, id, depth);
      ChainRecords(mws[1..], actions, req, id', depth + 1, WriterPast(mws[0], w, id'));
      match mws[0]
      case RequestID => IdLayer(mws, actions, req, id, depth, w);
      case Logger => RecorderLayer(mws, actions, req, id, depth, w);
      case Recover => RecoverLayer(mws, actions, req, id, depth, w);
      case CORS => CORSLayer(mws, actions, req, id, depth, w);
      case Metrics => RecorderLayer(mws, actions, req, id, depth, w);
    }
  }

  // ---------- Log entries and counters ----------

  /** Every log entry and counter increment in a trace says the same: these bytes, this status. */
  ghost predicate Says(trace: seq<Event>, req: Request, bytes: int, status: nat) {
    forall e | e in trace ::
      && (e.Logged? ==> e.bytes == bytes && e.status == status)
      && (e.Counted? ==> e.verb == req.verb && e.path == req.path && e.status == status)
  }

  lemma NumOfFew(t: seq<Event>)
    requires 1 <= |t| <= 2
    ensures NumLogged(t) == (if t[0].Logged? then 1 else 0) + (if |t| == 2 && t[1].Logged? then 1 else 0)
    ensures NumCounted(t) == (if t[0].Counted? then 1 else 0) + (if |t| == 2 && t[1].Counted? then 1 else 0)
  {
    assert t[1..] == if |t| == 2 then [t[1]] else [];
    assert [t[|t| - 1]][1..] == [];
  }

  /** How many entries of a kind the layers `mws` make: one per layer of that kind that is
      entered and whose inner handler returns. */
  function Calm(kind: Middleware, mws: seq<Middleware>, req: Request, actions: seq<Action>): nat {
    if mws == [] || ShortCircuits(mws[0], req) then 0
    else (if mws[0] == kind && !Escapes(mws[1..], req, actions) then 1 else 0) + Calm(kind, mws[1..], req, actions)
  }

  function NumLogged(trace: seq<Event>): nat {
    if trace == [] then 0 else (if trace[0].Logged? then 1 else 0) + NumLogged(trace[1..])
  }

  function NumCounted(trace: seq<Event>): nat {
    if trace == [] then 0 else (if trace[0].Counted? then 1 else 0) + NumCounted(trace[1..])
  }

  lemma {:induction false} NumConcat(a: seq<Event>, b: seq<Event>)
    ensures NumLogged(a + b) == NumLogged(a) + NumLogged(b)
    ensures NumCounted(a + b) == NumCounted(a) + NumCounted(b)
  {
    if a == [] {
      assert a + b == b;
    } else {
      assert (a + b)[1..] == a[1..] + b;
      NumConcat(a[1..], b);
    }
  }

  predicate Silent(trace: seq<Event>) {
    forall e | e in trace :: !e.Logged? && !e.Counted?
  }

  /** What the outermost layer adds after the inner handler has ended. */
  function Outer(mws: seq<Middleware>, actions: seq<Action>, req: Request, id: string, depth: nat, w: Writer): Served
    requires mws != []
  {
    var inner := Inside(mws, actions, req, id, depth, w);
    assert mws[0].Logger? ==> Shape(inner.writer)[0];
    assert mws[0].Metrics? ==> !Shape(inner.writer)[0];
    Unwind(mws[0], req, id, depth, inner)
  }

  lemma TraceOfLayer(mws: seq<Middleware>, actions: seq<Action>, req: Request, id: string, depth: nat, w: Writer)
    requires mws != [] && !ShortCircuits(mws[0], req)
    ensures Run(mws, actions, req, id, depth, w).trace
      == [Enter(depth, mws[0])] + Inside(mws, actions, req, id, depth, w).trace
        + Outer(mws, actions, req, id, depth, w).trace
  {
  }

  /** What the recorder of the outermost layer holds when the inner handler has ended. */
  lemma OwnRecorder(mws: seq<Middleware>, actions: seq<Action>, req: Request, id: string, depth: nat, w: Writer)
    requires mws != [] && !ShortCircuits(mws[0], req) && (mws[0].Logger? || mws[0].Metrics?)
    ensures var r, inner := Run(mws, actions, req, id, depth, w), Inside(mws, actions, req, id, depth, w);
      && (mws[0].Logger? ==> inner.writer.Logging? && inner.writer.size == BytesOf(w, r))
      && (mws[0].Metrics? ==> inner.writer.Counting?)
      && inner.writer.status == GetOr(LastOf(mws[1..], req, actions), 200)
  {
    var mw, rest := mws[0], mws[1..];
    var v, inner := WriterPast(mw, w, id), Inside(mws, actions, req, id, depth, w);
    ChainRecords(rest, actions, req, id, depth + 1, v);
    RecordsUnwrap(mw, w, inner.writer, BytesOf(v, inner), LastOf(rest, req, actions), FirstOf(rest, req, actions));
  }

  /** The one or two events of the outermost layer itself: it is left, and then a logger or
      a counter makes its entry if control has returned, and a recoverer if it has not. */
  lemma OuterTrace(mws: seq<Middleware>, actions: seq<Action>, req: Request, id: string, depth: nat, w: Writer)
    requires mws != [] && !ShortCircuits(mws[0], req)
    ensures var mw, own := mws[0], Outer(mws, actions, req, id, depth, w).trace;
      var bytes, status := BytesOf(w, Run(mws, actions, req, id, depth, w)), GetOr(LastOf(mws, req, actions), 200);
      var escaped := Escapes(mws[1..], req, actions);
      && 1 <= |own| <= 2
      && own[0] == Exit(depth, mw, if escaped then Panicked else Returned)
      && (|own| == 2 <==> if escaped then mw.Recover? else mw.Logger? || mw.Metrics?)
      && (|own| == 2 && mw.Logger? ==>
            own[1].Logged? && own[1].depth == depth && own[1].id == id
            && own[1].bytes == bytes && own[1].status == status)
      && (|own| == 2 && mw.Metrics? ==> own[1] == Counted(req.verb, req.path, status))
      && (|own| == 2 && mw.Recover? ==> own[1] == Recovered(depth, id))
  {
    var mw, rest := mws[0], mws[1..];
    var id' := IdPast(mw, req, id, depth);
    ChainRecords(rest, actions, req, id', depth + 1, WriterPast(mw, w, id'));
    if mw.Logger? || mw.Metrics? {
      assert forall m :: m in mws <==> m == mw || m in rest;
      OwnRecorder(mws, actions, req, id, depth, w);
    }
  }

  lemma OwnEntries(mws: seq<Middleware>, actions: seq<Action>, req: Request, id: string, depth: nat, w: Writer)
    requires mws != [] && !ShortCircuits(mws[0], req)
    ensures var r, own := Run(mws, actions, req, id, depth, w), Outer(mws, actions, req, id, depth, w).trace;
      && Says(own, req, BytesOf(w, r), GetOr(LastOf(mws, req, actions), 200))
      && (Escapes(mws[1..], req, actions) ==> Silent(own))
      && NumLogged(own) == (if mws[0].Logger? && !Escapes(mws[1..], req, actions) then 1 else 0)
      && NumCounted(own) == (if mws[0].Metrics? && !Escapes(mws[1..], req, actions) then 1 else 0)
  {
    OuterTrace(mws, actions, req, id, depth, w);
    NumOfFew(Outer(mws, actions, req, id, depth, w).trace);
  }

  /** Every log entry of a run carries the bytes the wire took and the last status asked for,
      for every chain and script; a run that panics out makes no entry at all. */
  lemma {:induction false} EntriesSay(
    mws: seq<Middleware>, actions: seq<Action>, req: Request, id: string, depth: nat, w: Writer)
    ensures var r := Run(mws, actions, req, id, depth, w);
      && Says(r.trace, req, BytesOf(w, r), GetOr(LastOf(mws, req, actions), 200))
      && (Escapes(mws, req, actions) ==> Silent(r.trace))
    decreases mws
  {
    if mws != [] && !ShortCircuits(mws[0], req) {
      var mw, rest := mws[0], mws[1..];
      var id' := IdPast(mw, req, id, depth);
      var v, inner := WriterPast(mw, w, id'), Inside(mws, actions, req, id, depth, w);
      EntriesSay(rest, actions, req, id', depth + 1, v);
      OwnEntries(mws, actions, req, id, depth, w);
      TraceOfLayer(mws, actions, req, id, depth, w);
      ChainRecords(rest, actions, req, id', depth + 1, v);
      assert forall m :: m in mws <==> m == mw || m in rest;
      if !Escapes(rest, req, actions) {
        QuietUnwind(mw, w, req, id, id', depth, inner);
        assert LastOf(mws, req, actions) == LastOf(rest, req, actions);
      }
    }
  }

  /** A layer whose inner handler returns adds nothing to the body. */
  lemma QuietUnwind(mw: Middleware, w: Writer, req: Request, id: string, id': string, depth: nat, inner: Served)
    requires inner.how.Returned? && Shape(inner.writer) == Shape(WriterPast(mw, w, id'))
    ensures mw.Logger? ==> inner.writer.Logging?
    ensures mw.Metrics? ==> inner.writer.Counting?
    ensures WireOf(Unwind(mw, req, id, depth, inner).writer) == WireOf(inner.writer)
    ensures WireOf(WriterPast(mw, w, id')).bytes == WireOf(w).bytes
  {
    SetIdHeaderRecords(w, id');
    assert mw.Logger? ==> Shape(inner.writer)[0];
    assert mw.Metrics? ==> !Shape(inner.writer)[0];
  }

  /** A chain that answers in the handler's place sends no body. */
  lemma {:induction false} ShortCircuitSendsNothing(
    mws: seq<Middleware>, actions: seq<Action>, req: Request, id: string, depth: nat, w: Writer)
    requires !Reaches(mws, req)
    ensures BytesOf(w, Run(mws, actions, req, id, depth, w)) == 0
    decreases mws
  {
    if ShortCircuits(mws[0], req) {
      HeaderAdds(w, 204);
    } else {
      var mw, rest := mws[0], mws[1..];
      var id' := IdPast(mw, req, id, depth);
      ShortCircuitSendsNothing(rest, actions, req, id', depth + 1, WriterPast(mw, w, id'));
      ChainRecords(rest, actions, req, id', depth + 1, WriterPast(mw, w, id'));
      QuietUnwind(mw, w, req, id, id', depth, Inside(mws, actions, req, id, depth, w));
    }
  }

  /** A chain that reaches the handler sends what the handler's script sends: on a connection
      that takes all it is offered, the whole body. */
  lemma {:induction false} ChainSendsWholeBody(
    mws: seq<Middleware>, actions: seq<Action>, req: Request, id: string, depth: nat, w: Writer)
    requires Reaches(mws, req) && WireOf(w).status == None
    requires forall i | 0 <= i < |actions| :: !actions[i].Panic?
    requires forall i | 0 <= i < |actions| && actions[i].Body? :: actions[i].len <= actions[i].room
    requires forall i | 0 <= i < |actions| && actions[i].SetCode? :: actions[i].code !in {204, 304}
    ensures BytesOf(w, Run(mws, actions, req, id, depth, w)) == BodyLength(actions)
    decreases mws
  {
    if mws == [] {
      WholeBodyIsSent(actions, w);
    } else {
      var mw, rest := mws[0], mws[1..];
      var id' := IdPast(mw, req, id, depth);
      SetIdHeaderRecords(w, id');
      assert forall m :: m in rest ==> m in mws;
      ChainSendsWholeBody(rest, actions, req, id', depth + 1, WriterPast(mw, w, id'));
      ChainRecords(rest, actions, req, id', depth + 1, WriterPast(mw, w, id'));
      QuietUnwind(mw, w, req, id, id', depth, Inside(mws, actions, req, id, depth, w));
    }
  }

  /** Exact accounting for every chain: log entries and counter increments are made by
      exactly the calm layers, one each. */
  lemma {:induction false} EntriesCount(
    mws: seq<Middleware>, actions: seq<Action>, req: Request, id: string, depth: nat, w: Writer)
    ensures var r := Run(mws, actions, req, id, depth, w);
      && NumLogged(r.trace) == Calm(Logger, mws, req, actions)
      && NumCounted(r.trace) == Calm(Metrics, mws, req, actions)
    decreases mws
  {
    var r := Run(mws, actions, req, id, depth, w);
    if mws != [] && !ShortCircuits(mws[0], req) {
      var id' := IdPast(mws[0], req, id, depth);
      var inner := Inside(mws, actions, req, id, depth, w);
      EntriesCount(mws[1..], actions, req, id', depth + 1, WriterPast(mws[0], w, id'));
      OwnEntries(mws, actions, req, id, depth, w);
      TraceOfLayer(mws, actions, req, id, depth, w);
      var enter := [Enter(depth, mws[0])];
      NumOfFew(enter);
      NumConcat(enter, inner.trace);
      NumConcat(enter + inner.trace, Outer(mws, actions, req, id, depth, w).trace);
    } else {
      NumOfFew(r.trace);
    }
  }
}
