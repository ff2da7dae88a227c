/** The documented stack of middlewares, outermost first, around an arbitrary handler. */
module StandardStack {
  import opened Platform
  import opened Handlers
  import opened Accounting
  import opened Tracing

  const STANDARD: seq<Middleware> := [RequestID, Logger, Recover, CORS, Metrics]

  predicate Preflight(req: Request) { req.verb == "OPTIONS" }

  lemma StandardSlices()
    ensures STANDARD[1..] == [Logger, Recover, CORS, Metrics]
    ensures STANDARD[1..][1..] == [Recover, CORS, Metrics]
    ensures STANDARD[1..][1..][1..] == [CORS, Metrics]
    ensures STANDARD[1..][1..][1..][1..] == [Metrics]
    ensures STANDARD[1..][1..][1..][1..][1..] == []
  {
  }

  lemma StandardReach(req: Request)
    ensures Reaches(STANDARD, req) <==> !Preflight(req)
    ensures Recover in STANDARD
  {
    assert STANDARD[3] == CORS && CORS in STANDARD;
    assert STANDARD[2] == Recover;
  }

  /** Which layers of the stack escape a panic, from the outside in. */
  lemma StandardCalm(req: Request, actions: seq<Action>)
    ensures Calm(Logger, STANDARD, req, actions) == 1
    ensures Calm(Metrics, STANDARD, req, actions) == if Preflight(req) || Panics(actions) then 0 else 1
    ensures LostLayers(STANDARD, req, actions) == if !Preflight(req) && Panics(actions) then 1 else 0
  {
    StandardSlices();
    StandardReach(req);
    var s1, s2, s3, s4 := STANDARD[1..], STANDARD[1..][1..], STANDARD[1..][1..][1..], STANDARD[1..][1..][1..][1..];
    var s5 := s4[1..];
    assert !Escapes(s2, req, actions) by { assert s2[0] == Recover; }
    if !Preflight(req) {
      assert Escapes(s5, req, actions) <==> Panics(actions);
    }
    assert Calm(Logger, s4, req, actions) == 0 by { assert Calm(Logger, s5, req, actions) == 0; }
    assert Calm(Logger, s3, req, actions) == 0;
    assert Calm(Logger, s2, req, actions) == 0;
    assert Calm(Logger, s1, req, actions) == 1;
    var c := if Preflight(req) || Panics(actions) then 0 else 1;
    assert Calm(Metrics, s5, req, actions) == 0;
    assert Calm(Metrics, s3, req, actions) == c;
    assert Calm(Metrics, s2, req, actions) == c;
    assert Calm(Metrics, s1, req, actions) == c;
    var l := if !Preflight(req) && Panics(actions) then 1 else 0;
    assert LostLayers(s5, req, actions) == 0;
    assert LostLayers(s3, req, actions) == l;
    assert LostLayers(s2, req, actions) == l;
    assert LostLayers(s1, req, actions) == l;
  }

  function Request1(req: Request, actions: seq<Action>): Served {
    Run(STANDARD, actions, req, "", 0, Fresh())
  }

  /** The status the log entry shows, and the status on the wire. */
  function LoggedStatus(req: Request, actions: seq<Action>): nat {
    if Preflight(req) then 204 else if Panics(actions) then 500 else Recorded(actions)
  }

  function WireStatus(req: Request, actions: seq<Action>): nat {
    if Preflight(req) then 204
    else if Panics(actions) then GetOr(FirstStatus(Executed(actions)), 500)
    else Sent(actions)
  }

  /** One request through the stack, for every handler script: no panic escapes; there is
      exactly one log entry, showing the bytes the connection took, the last status asked for,
      and the request id the handler saw and the response carries; the wire shows the first
      status that took effect; and the request is counted iff the handler was run and returned. */
  lemma StandardRequest(req: Request, actions: seq<Action>)
    ensures var r, id := Request1(req, actions), ChooseId(req, 0);
      && r.how.Returned?
      && NumLogged(r.trace) == 1
      && WireOf(r.writer).idHeader == id
      && GetOr(WireOf(r.writer).status, 200) == WireStatus(req, actions)
      && ((exists e | e in r.trace :: IsHandled(e)) <==> !Preflight(req))
      && (forall e | e in r.trace ::
            && (e.Handled? ==> e.id == id)
            && (e.Recovered? ==> e.id == id)
            && (e.Logged? ==>
                  e.id == id && e.bytes == WireOf(r.writer).bytes && e.status == LoggedStatus(req, actions))
            && (e.Counted? ==> e == Counted(req.verb, req.path, LoggedStatus(req, actions))))
      && NumCounted(r.trace) == (if Preflight(req) || Panics(actions) then 0 else 1)
  {
    StandardReach(req);
    StandardCalm(req, actions);
    ChainRecords(STANDARD, actions, req, "", 0, Fresh());
    EntriesSay(STANDARD, actions, req, "", 0, Fresh());
    EntriesCount(STANDARD, actions, req, "", 0, Fresh());
    HandlerRunsWhenReached(STANDARD, actions, req, "", 0, Fresh());
    StandardIds(req, actions);
    StandardHeader(req, actions);
  }

  lemma StandardIds(req: Request, actions: seq<Action>)
    ensures forall e | e in Request1(req, actions).trace ::
      e.Handled? || e.Logged? || e.Recovered? ==> e.id == ChooseId(req, 0)
  {
    var rest, id := STANDARD[1..], ChooseId(req, 0);
    StandardSlices();
    var r, inner := Request1(req, actions), Inside(STANDARD, actions, req, "", 0, Fresh());
    IdsAreContextual(rest, actions, req, id, 1, SetIdHeader(Fresh(), id));
    TraceOfLayer(STANDARD, actions, req, "", 0, Fresh());
    OuterShape(STANDARD, actions, req, "", 0, Fresh());
    forall e | e in r.trace && (e.Handled? || e.Logged? || e.Recovered?) ensures e.id == id {
      var own := Outer(STANDARD, actions, req, "", 0, Fresh()).trace;
      assert own == [Exit(0, RequestID, inner.how)];
      assert e in inner.trace;
      assert ContextId(e, rest, req, id, 1);
      IdUnchanged(rest, req, id, 1, if e.Handled? then |rest| else e.depth - 1);
    }
  }

  lemma StandardHeader(req: Request, actions: seq<Action>)
    ensures WireOf(Request1(req, actions).writer).idHeader == ChooseId(req, 0)
  {
    var id := ChooseId(req, 0);
    StandardSlices();
    RunKeepsSentHeader(STANDARD[1..], actions, req, id, 1, SetIdHeader(Fresh(), id));
  }

  /** A panic before anything was written is answered with 500, on the wire and in the log. */
  lemma EarlyPanicIsFiveHundred(req: Request, actions: seq<Action>)
    requires !Preflight(req) && Panics(actions) && FirstStatus(Executed(actions)).None?
    ensures var r := Request1(req, actions);
      WireOf(r.writer).status == Some(500) && forall e | e in r.trace && e.Logged? :: e.status == 500
  {
    StandardRequest(req, actions);
    ChainRecords(STANDARD, actions, req, "", 0, Fresh());
    StandardReach(req);
  }

  /** Log and wire disagree exactly for a panic after some other status went out, or for a
      handler that returns having asked too late. */
  lemma LogDisagreesWithWire(req: Request, actions: seq<Action>)
    ensures LoggedStatus(req, actions) != WireStatus(req, actions) <==>
      !Preflight(req) &&
      (if Panics(actions)
       then FirstStatus(Executed(actions)).Some? && FirstStatus(Executed(actions)) != Some(500)
       else exists i :: 0 < i < |Executed(actions)| && Executed(actions)[i].SetCode?
              && (forall j | i < j < |Executed(actions)| :: !Executed(actions)[j].SetCode?)
              && Executed(actions)[i].code !=
                   (if Executed(actions)[0].SetCode? then Executed(actions)[0].code else 200))
  {
    DisagreementIsLateRequest(actions);
  }

  /** Both kinds happen, for every request that is no preflight: a panic after any status but
      500 is logged as 500, and a status asked for after the body has begun is logged all the
      same, while the wire shows what went out first. */
  lemma DisagreeingScripts(req: Request, code: Code, len: nat, room: nat)
    requires !Preflight(req)
    ensures var broken := [SetCode(code), Panic];
      LoggedStatus(req, broken) == 500 && WireStatus(req, broken) == code
    ensures var late := [Body(len, room), SetCode(code)];
      LoggedStatus(req, late) == code && WireStatus(req, late) == 200
  {
    var broken, late := [SetCode(code), Panic], [Body(len, room), SetCode(code)];
    assert broken[1].Panic?;
    assert broken[1..] == [Panic];
    assert Executed(broken) == [SetCode(code)];
    assert late[1..] == [SetCode(code)] && [SetCode(code)][1..] == [];
    assert Executed([SetCode(code)]) == [SetCode(code)];
    assert Executed(late) == late;
  }

  lemma {:induction false} NoneCounted(t: seq<Event>)
    ensures NumCounted(t) == 0 <==> forall e | e in t :: !e.Counted?
  {
    if t != [] {
      NoneCounted(t[1..]);
      assert t[0] in t && forall e :: e in t <==> e == t[0] || e in t[1..];
    }
  }

  /** A preflight is answered 204 with no body; it is logged as that, and neither handled nor
      counted. */
  lemma PreflightAnswer(req: Request, actions: seq<Action>)
    requires req.verb == "OPTIONS"
    ensures var r := Request1(req, actions);
      && WireOf(r.writer).status == Some(204) && WireOf(r.writer).bytes == 0
      && (forall e | e in r.trace :: !e.Handled? && !e.Counted? && (e.Logged? ==> e.status == 204 && e.bytes == 0))
  {
    StandardRequest(req, actions);
    StandardReach(req);
    ChainRecords(STANDARD, actions, req, "", 0, Fresh());
    EntriesCount(STANDARD, actions, req, "", 0, Fresh());
    var t := Request1(req, actions).trace;
    NoneCounted(t);
    assert forall e | e in t :: !IsHandled(e);
    ShortCircuitSendsNothing(STANDARD, actions, req, "", 0, Fresh());
  }

  lemma SentBeforePanic(actions: seq<Action>)
    requires Panics(actions)
    ensures GetOr(FirstStatus(Executed(actions)), 500)
      == match actions[0] case Panic => 500 case SetCode(code) => code case Body(_, _) => 200
  {
  }

  /** Any other request, told by its script.  If the handler returns, log and counter show its
      last status request, or 200 without one, and the wire the status it begins with, or 200.
      If it panics, the log shows 500 and nothing is counted, and the wire shows what the
      script begins with: 500 if that is the panic. */
  lemma RequestByScript(req: Request, actions: seq<Action>)
    requires req.verb != "OPTIONS"
    ensures var r := Request1(req, actions); var sent := GetOr(WireOf(r.writer).status, 200);
      && (exists e | e in r.trace :: e.Handled?)
      && ((forall i | 0 <= i < |actions| :: !actions[i].Panic?) ==>
            && (forall e, i | e in r.trace && (e.Logged? || e.Counted?) && 0 <= i < |actions| && actions[i].SetCode?
                  && (forall j | i < j < |actions| :: !actions[j].SetCode?) :: e.status == actions[i].code)
            && (forall e | e in r.trace && (e.Logged? || e.Counted?)
                  && (forall i | 0 <= i < |actions| :: !actions[i].SetCode?) :: e.status == 200)
            && sent == if actions != [] && actions[0].SetCode? then actions[0].code else 200)
      && ((exists i | 0 <= i < |actions| :: actions[i].Panic?) ==>
            && (forall e | e in r.trace :: !e.Counted? && (e.Logged? ==> e.status == 500))
            && sent == match actions[0] case Panic => 500 case SetCode(code) => code case Body(_, _) => 200)
  {
    StandardRequest(req, actions);
    NoneCounted(Request1(req, actions).trace);
    assert exists e | e in Request1(req, actions).trace :: IsHandled(e);
    if Panics(actions) {
      SentBeforePanic(actions);
    } else {
      RecordedAndSent(actions);
    }
  }

  /** An incoming request id is kept: the handler sees it, log and recovery entries show it and
      the response carries it.  Without one the layer draws its own. */
  lemma IncomingIdIsKept(req: Request, actions: seq<Action>)
    ensures var r := Request1(req, actions);
      var id := if req.idHeader != "" then req.idHeader else if req.draws != [] then req.draws[0] else "";
      && WireOf(r.writer).idHeader == id
      && forall e | e in r.trace && (e.Handled? || e.Logged? || e.Recovered?) :: e.id == id
  {
    StandardRequest(req, actions);
  }
}
