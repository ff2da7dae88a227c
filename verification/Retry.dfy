/** The inter-service HTTP client: one call, retried on transport errors and on server
    errors, against an arbitrary stream of outcomes. */
module Retry {
  import opened Platform

  const MAX_INT := 0x7FFF_FFFF_FFFF_FFFF

  type Int64 = x: int | -MAX_INT - 1 <= x <= MAX_INT

  /** Two's-complement wrap-around of the machine integer. */
  function Wrap64(x: int): (r: Int64)
    ensures -MAX_INT - 1 <= x <= MAX_INT ==> r == x
    ensures x == MAX_INT + 1 ==> r == -MAX_INT - 1
  {
    (x + MAX_INT + 1) % (2 * MAX_INT + 2) - MAX_INT - 1
  }

  datatype Body = NoBody | Encoded(bytes: string) | Unencodable(message: string)

  datatype Request = Request(verb: string, url: string, headers: map<string, string>, body: Option<string>)

  /** What sending one request yields; `decodeError` is what decoding the body would say. */
  datatype Outcome =
    | TransportError(message: string)
    | Response(code: nat, body: string, decodeError: Option<string>)

  /** One round of the stream: whether the context ends during the backoff before it, and
      what the request meets. */
  datatype Round = Round(cancelled: Option<string>, outcome: Outcome)

  datatype Error =
    | MarshalFailed(message: string)
    | InvalidRequest(message: string)
    | Cancelled(message: string)
    | Transport(message: string)
    | Server(code: nat)
    | Http(code: nat, body: string)
    | DecodeFailed(message: string)

  /** Everything observable about a call: its error, if any, the requests sent, the rounds
      whose response body was closed, and the backoffs slept through, in milliseconds. */
  datatype Call = Call(result: Option<Error>, sent: seq<Request>, closed: seq<nat>, slept: seq<nat>)

  // ---------- The specification ----------

  predicate Retryable(o: Outcome) {
    o.TransportError? || o.code >= 500
  }

  /** The error a call ends with when o is the outcome it does not retry. */
  function FinalError(o: Outcome, wantOut: bool): Option<Error> {
    match o
    case TransportError(m) => Some(Transport(m))
    case Response(code, body, decodeError) =>
      if code >= 400 then Some(Http(code, body))
      else if wantOut && decodeError.Some? then Some(DecodeFailed(decodeError.value))
      else None
  }

  /** How a call ends: its error and how many requests it sent. */
  datatype Ending = Ending(error: Option<Error>, sends: nat)

  /** The call from round k on, with rounds up to `budget` allowed. */
  function EndingFrom(stream: nat -> Round, wantOut: bool, budget: nat, k: nat): (e: Ending)
    requires k <= budget
    ensures k <= e.sends <= budget + 1
    decreases budget - k
  {
    if k > 0 && stream(k).cancelled.Some? then Ending(Some(Cancelled(stream(k).cancelled.value)), k)
    else if Retryable(stream(k).outcome) && k < budget then EndingFrom(stream, wantOut, budget, k + 1)
    else Ending(FinalError(stream(k).outcome, wantOut), k + 1)
  }

  /** The first round that ends the call, told without following it round by round. */
  predicate EndsAt(stream: nat -> Round, budget: nat, n: nat) {
    && n <= budget
    && (forall k | 0 < k <= n :: stream(k).cancelled.None?)
    && (forall k | 0 <= k < n :: Retryable(stream(k).outcome))
    && (!Retryable(stream(n).outcome) || n == budget || stream(n + 1).cancelled.Some?)
  }

  lemma {:induction false} EndingIsFirstEnd(stream: nat -> Round, wantOut: bool, budget: nat, k: nat, n: nat)
    requires k <= n && EndsAt(stream, budget, n)
    ensures EndingFrom(stream, wantOut, budget, k) ==
      if Retryable(stream(n).outcome) && n < budget
      then Ending(Some(Cancelled(stream(n + 1).cancelled.value)), n + 1)
      else Ending(FinalError(stream(n).outcome, wantOut), n + 1)
    decreases n - k
  {
    if k < n {
      EndingIsFirstEnd(stream, wantOut, budget, k + 1, n);
    }
  }

  lemma {:induction false} SomeRoundEnds(stream: nat -> Round, budget: nat, k: nat) returns (n: nat)
    requires k <= budget
    requires forall j | 0 < j <= k :: stream(j).cancelled.None?
    requires forall j | 0 <= j < k :: Retryable(stream(j).outcome)
    ensures EndsAt(stream, budget, n)
    decreases budget - k
  {
    if Retryable(stream(k).outcome) && k < budget && stream(k + 1).cancelled.None? {
      n := SomeRoundEnds(stream, budget, k + 1);
    } else {
      n := k;
    }
  }

  /** Where a call stops and what it answers, for every stream and told by the status codes.
      It goes past a round only for a transport error or a code from 500 on.  It stops at the
      first answer below 500, at a cancelled backoff, or when the budget is spent.  The last
      answer is an http error from 400 on, a decode error if output was wanted and cannot be
      decoded, and otherwise no error. */
  lemma CallEndings(stream: nat -> Round, wantOut: bool, budget: nat)
    ensures var e := EndingFrom(stream, wantOut, budget, 0);
      var last := stream(e.sends - 1).outcome;
      && 1 <= e.sends <= budget + 1
      && (forall k | 0 <= k < e.sends - 1 :: stream(k).outcome.TransportError? || stream(k).outcome.code >= 500)
      && (forall k | 0 < k < e.sends :: stream(k).cancelled.None?)
      && ((last.Response? && last.code < 500) || e.sends == budget + 1 || stream(e.sends).cancelled.Some?)
      && (e.error.None? <==> last.Response? && last.code < 400 && (wantOut ==> last.decodeError.None?))
      && (last.Response? && last.code < 400 && wantOut && last.decodeError.Some? ==>
            e.error == Some(DecodeFailed(last.decodeError.value)))
      && (last.Response? && 400 <= last.code < 500 ==> e.error == Some(Http(last.code, last.body)))
      && (last.Response? && last.code >= 500 && e.sends == budget + 1 ==> e.error == Some(Http(last.code, last.body)))
      && (last.TransportError? && e.sends == budget + 1 ==> e.error == Some(Transport(last.message)))
      && ((last.Response? ==> last.code >= 500) && e.sends <= budget ==>
            e.error == Some(Cancelled(stream(e.sends).cancelled.value)))
      && (e.error.Some? ==> !e.error.value.Server?)
  {
    var n := SomeRoundEnds(stream, budget, 0);
    EndingIsFirstEnd(stream, wantOut, budget, 0, n);
  }

  predicate Answers(stream: nat -> Round, k: nat) {
    stream(k).outcome.Response? && stream(k).outcome.code < 500
  }

  /** Without cancellation the number of requests says where the first answer below 500 is:
      the last of them, if there are fewer than the budget allows; and if there is one up to
      the last round, it is where the call ends. */
  lemma SendsToFirstAnswer(stream: nat -> Round, wantOut: bool, budget: nat)
    requires forall k | 0 < k <= budget :: stream(k).cancelled.None?
    ensures var e := EndingFrom(stream, wantOut, budget, 0);
      && 1 <= e.sends <= budget + 1
      && (e.sends <= budget <==> exists k | 0 <= k < budget :: Answers(stream, k))
      && (forall k | 0 <= k <= budget && Answers(stream, k) && (forall j | 0 <= j < k :: !Answers(stream, j)) ::
            e.sends == k + 1)
      && ((forall k | 0 <= k <= budget :: !Answers(stream, k)) ==> e.sends == budget + 1)
  {
    CallEndings(stream, wantOut, budget);
    var e := EndingFrom(stream, wantOut, budget, 0);
    assert forall k | 0 <= k < e.sends - 1 :: !Answers(stream, k);
    assert e.sends <= budget ==> Answers(stream, e.sends - 1);
  }

  /** The call used up its budget on an outcome it would have retried. */
  predicate Exhausted(stream: nat -> Round, budget: nat, e: Ending) {
    && e.sends == budget + 1
    && (stream(budget).outcome.TransportError? || stream(budget).outcome.code >= 500)
  }

  /** Two runs on one stream: a larger budget changes nothing, neither the requests nor the
      result, exactly when the smaller one was not exhausted.  So a call that succeeds with
      some budget succeeds alike with every larger one. */
  lemma {:induction false} BudgetMonotone(stream: nat -> Round, wantOut: bool, small: nat, large: nat, k: nat)
    requires k <= small < large
    ensures EndingFrom(stream, wantOut, small, k) == EndingFrom(stream, wantOut, large, k)
      <==> !Exhausted(stream, small, EndingFrom(stream, wantOut, small, k))
    ensures EndingFrom(stream, wantOut, small, k).error.None? ==>
      EndingFrom(stream, wantOut, large, k) == EndingFrom(stream, wantOut, small, k)
    decreases small - k
  {
    if k < small && Retryable(stream(k).outcome) {
      BudgetMonotone(stream, wantOut, small, large, k + 1);
    }
  }

  // ---------- Accounting ----------

  /** The rounds below n that were answered, in order. */
  function Answered(stream: nat -> Round, n: nat): seq<nat> {
    if n == 0 then []
    else Answered(stream, n - 1) + if stream(n - 1).outcome.Response? then [n - 1] else []
  }

  lemma {:induction false} AnsweredExactlyOnce(stream: nat -> Round, n: nat)
    ensures forall k: nat :: k in Answered(stream, n) <==> k < n && stream(k).outcome.Response?
    ensures forall i, j | 0 <= i < j < |Answered(stream, n)| :: Answered(stream, n)[i] < Answered(stream, n)[j]
  {
    if n > 0 {
      AnsweredExactlyOnce(stream, n - 1);
      var before := Answered(stream, n - 1);
      assert forall k: nat :: k in Answered(stream, n) <==> k in before || (k == n - 1 && stream(k).outcome.Response?);
      assert forall i | 0 <= i < |before| :: before[i] in before;
    }
  }

  /** The backoffs before the second, third, ... of n requests. */
  function Backoffs(n: nat): seq<nat> {
    if n <= 1 then [] else Backoffs(n - 1) + [(n - 1) * 500]
  }

  function Sum(xs: seq<nat>): nat {
    if xs == [] then 0 else Sum(xs[..|xs| - 1]) + xs[|xs| - 1]
  }

  lemma Triangle(k: nat)
    requires k > 0
    ensures 250 * (k - 1) * k + 500 * k == 250 * k * (k + 1)
  {
    assert (k - 1) * k == k * k - k;
    assert k * (k + 1) == k * k + k;
    assert 250 * (k - 1) * k == 250 * ((k - 1) * k);
    assert 250 * k * (k + 1) == 250 * (k * (k + 1));
  }

  /** Before attempt k, counted from zero, the client has backed off 250 k (k + 1) ms in all. */
  lemma {:induction false} BackoffTotal(k: nat)
    ensures Sum(Backoffs(k + 1)) == 250 * k * (k + 1)
  {
    if k > 0 {
      BackoffTotal(k - 1);
      Triangle(k);
      assert Backoffs(k + 1)[..|Backoffs(k)|] == Backoffs(k);
    }
  }

  /** The one request of a call: full body, content type iff there is a body, and the bearer
      token in preference to the API key. */
  function Outgoing(base: string, token: string, apiKey: string, verb: string, path: string, body: Body): Request {
    Request(verb, base + path,
      map["Accept" := "application/json"]
      + (if body.NoBody? then map[] else map["Content-Type" := "application/json"])
      + (if token == "" && apiKey == "" then map[]
         else map["Authorization" := "Bearer " + if token != "" then token else apiKey]),
      if body.Encoded? then Some(body.bytes) else None)
  }

  /** What a request carries, header by header. */
  lemma OutgoingCarries(base: string, token: string, apiKey: string, verb: string, path: string, body: Body)
    ensures var r := Outgoing(base, token, apiKey, verb, path, body);
      && r.verb == verb && r.url == base + path
      && r.body == (match body case Encoded(bytes) => Some(bytes) case _ => None)
      && r.headers.Keys <= {"Accept", "Content-Type", "Authorization"}
      && "Accept" in r.headers && r.headers["Accept"] == "application/json"
      && ("Content-Type" in r.headers <==> !body.NoBody?)
      && ("Content-Type" in r.headers ==> r.headers["Content-Type"] == "application/json")
      && ("Authorization" in r.headers <==> token != "" || apiKey != "")
      && (token != "" ==> r.headers["Authorization"] == "Bearer " + token)
      && (token == "" && apiKey != "" ==> r.headers["Authorization"] == "Bearer " + apiKey)
  {
    assert "Accept" != "Content-Type" && "Accept" != "Authorization" && "Content-Type" != "Authorization";
  }

  // ---------- One round of the loop ----------

  lemma CancelledRound(stream: nat -> Round, wantOut: bool, budget: nat, k: nat)
    requires 0 < k <= budget && stream(k).cancelled.Some?
    ensures EndingFrom(stream, wantOut, budget, k) == Ending(Some(Cancelled(stream(k).cancelled.value)), k)
  {
  }

  /** A request has gone out and met its outcome. */
  lemma SentRound(stream: nat -> Round, wantOut: bool, budget: nat, k: nat)
    requires k <= budget && (k > 0 ==> stream(k).cancelled.None?)
    ensures EndingFrom(stream, wantOut, budget, k) ==
      if Retryable(stream(k).outcome) && k < budget then EndingFrom(stream, wantOut, budget, k + 1)
      else Ending(FinalError(stream(k).outcome, wantOut), k + 1)
    ensures Answered(stream, k + 1) == Answered(stream, k) + if stream(k).outcome.Response? then [k] else []
    ensures Backoffs(k + 1) == if k == 0 then [] else Backoffs(k) + [k * 500]
  {
  }

  /** After `sends` requests: the call goes on from there, or it has spent its budget. */
  predicate Underway(stream: nat -> Round, wantOut: bool, budget: nat, sends: nat, lastErr: Option<Error>) {
    EndingFrom(stream, wantOut, budget, 0) ==
      if sends <= budget then EndingFrom(stream, wantOut, budget, sends) else Ending(lastErr, sends)
  }

  // ---------- The client ----------

  class Client {
    var base: string
    var token: string
    var apiKey: string
    var maxRetry: Int64

    constructor (base: string)
      ensures this.base == base && token == "" && apiKey == "" && maxRetry == 2
    {
      this.base, token, apiKey, maxRetry := base, "", "", 2;
    }

    method WithBearerToken(token: string)
      modifies this`token
      ensures this.token == token
    {
      this.token := token;
    }

    method WithAPIKey(key: string)
      modifies this`apiKey
      ensures apiKey == key
    {
      apiKey := key;
    }

    method WithRetry(max: Int64)
      modifies this`maxRetry
      ensures maxRetry == max
    {
      maxRetry := max;
    }

    method BuildRequest(verb: string, path: string, body: Body) returns (r: Request)
      ensures r == Outgoing(base, token, apiKey, verb, path, body)
    {
      var headers := map[];
      if body != NoBody {
        headers := headers["Content-Type" := "application/json"];
      }
      headers := headers["Accept" := "application/json"];
      if token != "" {
        headers := headers["Authorization" := "Bearer " + token];
      } else if apiKey != "" {
        headers := headers["Authorization" := "Bearer " + apiKey];
      }
      r := Request(verb, base + path, headers, if body.Encoded? then Some(body.bytes) else None);
    }

    /** One call.  `invalid` is the error of building a request from this verb and path, which
        no attempt can change. */
    method Do(verb: string, path: string, body: Body, wantOut: bool,
        invalid: Option<string>, stream: nat -> Round)
      returns (c: Call)
      ensures body.Unencodable? ==> c == Call(Some(MarshalFailed(body.message)), [], [], [])
      // without a single round nothing is sent, and nothing is reported either
      ensures !body.Unencodable? && (maxRetry < 0 || maxRetry == MAX_INT) ==> c == Call(None, [], [], [])
      ensures !body.Unencodable? && 0 <= maxRetry < MAX_INT && invalid.Some? ==>
        c == Call(Some(InvalidRequest(invalid.value)), [], [], [])
      ensures !body.Unencodable? && 0 <= maxRetry < MAX_INT && invalid.None? ==>
        var e := EndingFrom(stream, wantOut, maxRetry, 0);
        && c.result == e.error
        && |c.sent| == e.sends
        && (forall r | r in c.sent :: r == Outgoing(base, token, apiKey, verb, path, body))
        && c.closed == Answered(stream, e.sends)
        && c.slept == Backoffs(e.sends)
    {
      if body.Unencodable? { return Call(Some(MarshalFailed(body.message)), [], [], []); }
      var lastErr: Option<Error> := None;
      var sent: seq<Request>, closed: seq<nat>, slept: seq<nat> := [], [], [];
      var attempt: int := 0;
      var rounds := Wrap64(maxRetry + 1);
      while attempt < rounds
        invariant 0 <= attempt && (if rounds > 0 then attempt <= rounds else attempt == 0)
        invariant |sent| == attempt && closed == Answered(stream, attempt) && slept == Backoffs(attempt)
        invariant forall r | r in sent :: r == Outgoing(base, token, apiKey, verb, path, body)
        invariant attempt == 0 ==> lastErr == None
        invariant attempt > 0 ==> invalid.None?
        invariant attempt > 0 ==> Underway(stream, wantOut, maxRetry, attempt, lastErr)
        decreases rounds - attempt
      {
        if attempt > 0 {
          if stream(attempt).cancelled.Some? {
            CancelledRound(stream, wantOut, maxRetry, attempt);
            return Call(Some(Cancelled(stream(attempt).cancelled.value)), sent, closed, slept);
          }
          slept := slept + [attempt * 500];
        }
        if invalid.Some? { return Call(Some(InvalidRequest(invalid.value)), sent, closed, slept); }
        SentRound(stream, wantOut, maxRetry, attempt);
        var req := BuildRequest(verb, path, body);
        sent := sent + [req];
        attempt := attempt + 1;
        match stream(attempt - 1).outcome
        case TransportError(m) =>
          lastErr := Some(Transport(m));
        case Response(code, text, decodeError) =>
          closed := closed + [attempt - 1];
          if code >= 500 && attempt - 1 < maxRetry {
            lastErr := Some(Server(code));
          } else if code >= 400 {
            return Call(Some(Http(code, text)), sent, closed, slept);
          } else if wantOut {
            return Call(if decodeError.Some? then Some(DecodeFailed(decodeError.value)) else None, sent, closed, slept);
          } else {
            return Call(None, sent, closed, slept);
          }
      }
      return Call(lastErr, sent, closed, slept);
    }
  }
}
