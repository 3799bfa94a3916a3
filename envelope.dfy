/** The answer envelope of the distributed API (DistributedAPI.print_json) and
    the mapping from the outcome of a local run to that envelope
    (DistributedAPI.execute_local_request and the except clauses of
    distribute_function). */
module Envelope {
  import opened Base
  import opened JsonModel

  /** The code of WazuhException(3021), raised when a local run overruns the
      API request timeout. */
  const TimeoutCode := 3021

  /** The code given to every exception that is not a WazuhException. */
  const InternalErrorCode := 1000

  /** What running `f(**f_kwargs)` in the executor came to: whether it was
      over before the API request timeout, and what it returned or raised. */
  datatype LocalRun = LocalRun(finishesInTime: bool, outcome: Outcome<Json>)

  /** What a call of the router gives its caller: an answer, or, in debug
      mode, the exception re-raised. */
  datatype Reply = Answered(body: Json) | Escaped(exc: Exc)

  /** The key the payload goes under: `'message' if error else 'data'`. */
  function PayloadKey(error: int): string
  {
    if error != 0 then "message" else "data"
  }

  /** print_json(data, error): `{'data' or 'message': data, 'error': error}`. */
  function PrintJson(data: Json, error: int): (r: Fields)
    ensures |r| == 2 && Keys(r) == {PayloadKey(error), "error"}
    ensures ("data" in Keys(r)) <==> error == 0
    ensures ("message" in Keys(r)) <==> error != 0
    ensures Lookup(r, PayloadKey(error)) == Some(data)
    ensures Lookup(r, "error") == Some(JInt(error))
  {
    var r := [(PayloadKey(error), data), ("error", JInt(error))];
    assert r[1..] == [("error", JInt(error))] && r[1..][1..] == [];
    assert Keys(r[1..]) == {"error"};
    r
  }

  /** The inverse of print_json: the payload and the code of an envelope. */
  function ReadEnvelope(j: Json): (r: Option<(Json, int)>)
    ensures r.Some? ==> j == JObj(PrintJson(r.value.0, r.value.1))
  {
    if j.JObj? && |j.fields| == 2 && j.fields[1].0 == "error" && j.fields[1].1.JInt?
       && j.fields[0].0 == PayloadKey(j.fields[1].1.i)
    then Some((j.fields[0].1, j.fields[1].1.i))
    else None
  }

  lemma EnvelopeRoundTrip(data: Json, error: int)
    ensures ReadEnvelope(JObj(PrintJson(data, error))) == Some((data, error))
  {
  }

  /** The payload and code an exception is answered with: its own code and
      message for a WazuhException, 1000 and its text for any other. */
  function ErrorAnswer(e: Exc): (r: (Json, int))
    ensures e.WazuhError? ==> r == (JStr(e.message), e.code)
    ensures e.OtherError? ==> r == (JStr(e.message), InternalErrorCode)
  {
    match e
    case WazuhError(code, message) => (JStr(message), code)
    case OtherError(message) => (JStr(message), InternalErrorCode)
  }

  /** The `try ... except WazuhException / except Exception` pair: a value
      is wrapped with error 0, an exception is re-raised in debug mode and
      answered with its code otherwise. */
  function Catch(o: Outcome<Json>, debug: bool): (r: Reply)
    ensures o.Returned? ==> r.Answered? && ReadEnvelope(r.body) == Some((o.value, 0))
    ensures o.Raised? && debug ==> r == Escaped(o.exc)
    ensures o.Raised? && !debug ==> r.Answered? && ReadEnvelope(r.body) == Some(ErrorAnswer(o.exc))
  {
    match o
    case Returned(v) => Answered(JObj(PrintJson(v, 0)))
    case Raised(e) =>
      if debug then Escaped(e)
      else var (d, c) := ErrorAnswer(e); Answered(JObj(PrintJson(d, c)))
  }

  /** execute_local_request: without wait_for_complete a run that overruns the
      timeout raises WazuhException(3021); the outcome is then caught. */
  function ExecuteLocal(run: LocalRun, waitForComplete: bool, debug: bool, timeoutMessage: string): (r: Reply)
    ensures !debug ==> r.Answered? && ReadEnvelope(r.body).Some?
    ensures !waitForComplete && !run.finishesInTime && !debug ==>
              ReadEnvelope(r.body) == Some((JStr(timeoutMessage), TimeoutCode))
              && ("message" in Keys(r.body.fields))
    ensures (waitForComplete || run.finishesInTime) ==> r == Catch(run.outcome, debug)
    ensures run.outcome.Returned? && (waitForComplete || run.finishesInTime) ==>
              r.Answered? && ReadEnvelope(r.body) == Some((run.outcome.value, 0))
  {
    var o := if !waitForComplete && !run.finishesInTime then Raised(WazuhError(TimeoutCode, timeoutMessage))
             else run.outcome;
    Catch(o, debug)
  }

  /** The except clauses of distribute_function around a branch that returns
      its answer as it is: re-raise in debug mode, else the error envelope. */
  function Guard(o: Outcome<Json>, debug: bool): (r: Reply)
    ensures o.Returned? ==> r == Answered(o.value)
    ensures o.Raised? && debug ==> r == Escaped(o.exc)
    ensures o.Raised? && !debug ==> r.Answered? && ReadEnvelope(r.body) == Some(ErrorAnswer(o.exc))
  {
    match o
    case Returned(v) => Answered(v)
    case Raised(e) =>
      if debug then Escaped(e)
      else var (d, c) := ErrorAnswer(e); Answered(JObj(PrintJson(d, c)))
  }
}
