/**
  The batch request handler (elevation.cpp): a POSTed JSON array of [x, y]
  pairs in, a JSON array of altitudes (null for no data) out.
 */
module Elevation {
  import opened Wrappers
  import opened Datasets

  newtype byte = b: int | 0 <= b < 256

  /** A json-c value as the handler inspects it. */
  datatype Json =
    | Null
    | Bool(b: bool)
    | Number(n: real)
    | Str(s: string)
    | Array(elems: seq<Json>)
    | Object(members: seq<(string, Json)>)

  datatype HttpMethod = Get | Post | Head | Put | Delete | Options | Trace | Connect | Patch

  /** An incoming request: its command (method) and its input buffer, None when evhttp gives none. */
  datatype Request = Request(command: HttpMethod, input: Option<seq<byte>>)

  /**
    What goes back to the client: `evhttp_send_error` with a status (and
    libevent's own error page), or `evhttp_send_reply` with a status, the
    Content-Type header and the output buffer.
   */
  datatype Response =
    | SendError(status: int)
    | SendReply(status: int, contentType: string, body: string)

  const ContentType: string := "application/json; charset=utf-8"

  /**
    The outcomes of the library calls the handler makes:
    - `outputAllocated`: `evbuffer_new` returns a buffer;
    - `copyComplete`: `evbuffer_copyout` copies the whole body;
    - `parse`: `json_tokener_parse_verbose`, None on a parse error; the
      document `null` parses to `Some(Null)`, which json-c returns as the
      same NULL pointer as a parse error;
    - `readDouble`: `json_object_get_double`, None when `errno` is EINVAL after it;
    - `resultAllocated`: `json_object_new_array` returns an array;
    - `serialize`: `json_object_to_json_string`;
    - `outputWritable`: `evbuffer_add` succeeds.
   */
  datatype Env = Env(
    outputAllocated: bool,
    copyComplete: bool,
    parse: seq<byte> -> Option<Json>,
    readDouble: Json -> Option<real>,
    resultAllocated: bool,
    serialize: Json -> string,
    outputWritable: bool)

  /** A batch element the loop accepts: an array of two coordinates that both read as numbers. */
  predicate WellFormedPair(e: Json, env: Env) {
    e.Array? && |e.elems| == 2
    && env.readDouble(e.elems[0]).Some? && env.readDouble(e.elems[1]).Some?
  }

  /** The result entry for an accepted pair: its altitude, or null for no data. */
  function Entry(e: Json, env: Env, altitude: (real, real) -> Altitude): (r: Json)
    requires WellFormedPair(e, env)
    ensures r == Null || r.Number?
    ensures r.Number? <==> altitude(env.readDouble(e.elems[0]).value, env.readDouble(e.elems[1]).value).Alt?
    ensures r.Number? ==> r.n == altitude(env.readDouble(e.elems[0]).value, env.readDouble(e.elems[1]).value).value
  {
    match altitude(env.readDouble(e.elems[0]).value, env.readDouble(e.elems[1]).value)
    case NoData => Null
    case Alt(v) => Number(v)
  }

  /**
    The result array of a batch: None as soon as one element is malformed,
    otherwise one entry per pair, in input order.
   */
  function Batch(elems: seq<Json>, env: Env, altitude: (real, real) -> Altitude): (r: Option<seq<Json>>)
    ensures r.None? <==> exists k :: 0 <= k < |elems| && !WellFormedPair(elems[k], env)
    ensures r.Some? ==> |r.value| == |elems|
    ensures r.Some? ==> forall k :: 0 <= k < |elems| ==>
      WellFormedPair(elems[k], env) && r.value[k] == Entry(elems[k], env, altitude)
  {
    if elems == [] then Some([])
    else if !WellFormedPair(elems[0], env) then None
    else
      match Batch(elems[1..], env, altitude)
      case None =>
        assert exists k :: 1 <= k < |elems| && !WellFormedPair(elems[k], env) by {
          var k :| 0 <= k < |elems[1..]| && !WellFormedPair(elems[1..][k], env);
          assert elems[k + 1] == elems[1..][k];
        }
        None
      case Some(rest) =>
        assert forall k :: 1 <= k < |elems| ==> elems[k] == elems[1..][k - 1];
        Some([Entry(elems[0], env, altitude)] + rest)
  }

  /**
    The response `elevation_request_cb` sends, step by step: 405 for a method
    other than POST; 500 when a buffer cannot be had, the body cannot be
    copied, it does not parse, it is the document `null` (a NULL pointer in
    json-c) or the output cannot be written; 400 for an empty body, any other
    non-array document or a malformed pair; otherwise 200.
   */
  function Respond(req: Request, env: Env, altitude: (real, real) -> Altitude): (r: Response)
    ensures req.command != Post ==> r == SendError(405)
    ensures r.SendError? ==> r.status in {400, 405, 500}
    ensures r.SendReply? ==> r.status == 200 && r.contentType == ContentType
  {
    if req.command != Post then SendError(405)
    else if !env.outputAllocated then SendError(500)
    else if req.input.None? then SendError(500)
    else if |req.input.value| == 0 then SendError(400)
    else if !env.copyComplete then SendError(500)
    else
      match env.parse(req.input.value)
      case None => SendError(500)
      case Some(json) =>
        if json.Null? then SendError(500)
        else if !json.Array? then SendError(400)
        // `n < 0` in the source cannot happen: a length is never negative here.
        else if |json.elems| == 0 then
          // The return value of this `evbuffer_add` is not checked.
          SendReply(200, ContentType, if env.outputWritable then "[]" else "")
        else if !env.resultAllocated then SendError(500)
        else
          match Batch(json.elems, env, altitude)
          case None => SendError(400)
          case Some(result) =>
            if env.outputWritable then SendReply(200, ContentType, env.serialize(Array(result)) + "\n")
            else SendError(500)
  }

  /**
    `elevation_request_cb`, with the registry's altitude query passed in as
    `altitude`. The loop appends one entry per pair to `result` and leaves
    with 400 at the first malformed pair.
   */
  method Handle(req: Request, env: Env, altitude: (real, real) -> Altitude) returns (resp: Response)
    ensures resp == Respond(req, env, altitude)
  {
    if req.command != Post {
      return SendError(405);
    }
    if !env.outputAllocated {
      return SendError(500);
    }
    var output: string := "";
    if req.input.None? {
      return SendError(500);
    }
    var data := req.input.value;
    if |data| == 0 {
      return SendError(400);
    }
    if !env.copyComplete {
      return SendError(500);
    }
    var json := env.parse(data);
    if json.None? || json.value.Null? {
      return SendError(500);
    }
    if !json.value.Array? {
      return SendError(400);
    }
    var elems := json.value.elems;
    var n := |elems|;
    if n == 0 {
      if env.outputWritable {
        output := output + "[]";
      }
    } else {
      if !env.resultAllocated {
        return SendError(500);
      }
      var result: seq<Json> := [];
      for i := 0 to n
        invariant |result| == i
        invariant forall k :: 0 <= k < i ==>
          WellFormedPair(elems[k], env) && result[k] == Entry(elems[k], env, altitude)
      {
        var coords := elems[i];
        if !coords.Array? || |coords.elems| != 2 {
          return SendError(400);
        }
        var x := env.readDouble(coords.elems[0]);
        if x.None? {
          return SendError(400);
        }
        var y := env.readDouble(coords.elems[1]);
        if y.None? {
          return SendError(400);
        }
        var alt := altitude(x.value, y.value);
        var val := if alt.Alt? then Number(alt.value) else Null;
        result := result + [val];
      }
      assert Batch(elems, env, altitude).Some?;
      assert Batch(elems, env, altitude).value == result;
      if !env.outputWritable {
        return SendError(500);
      }
      output := output + env.serialize(Array(result)) + "\n";
    }
    return SendReply(200, ContentType, output);
  }

  /** An empty body is refused with 400 before any parsing. */
  lemma EmptyBodyIsBadRequest(req: Request, env: Env, altitude: (real, real) -> Altitude)
    requires req.command == Post && env.outputAllocated && req.input == Some([])
    ensures Respond(req, env, altitude) == SendError(400)
  {
  }

  /** A body that does not parse is answered with 500, not 400. */
  lemma ParseFailureIsServerError(req: Request, env: Env, altitude: (real, real) -> Altitude)
    requires req.command == Post && env.outputAllocated && env.copyComplete
    requires req.input.Some? && |req.input.value| > 0 && env.parse(req.input.value).None?
    ensures Respond(req, env, altitude) == SendError(500)
  {
  }

  /**
    The document `null` is answered with 500, like a parse failure: json-c
    hands both back as a NULL pointer.
   */
  lemma NullDocumentIsServerError(req: Request, env: Env, altitude: (real, real) -> Altitude)
    requires req.command == Post && env.outputAllocated && env.copyComplete
    requires req.input.Some? && |req.input.value| > 0 && env.parse(req.input.value) == Some(Null)
    ensures Respond(req, env, altitude) == SendError(500)
  {
  }

  /** A parsed document other than `null` that is not an array is refused with 400. */
  lemma NonArrayIsBadRequest(req: Request, env: Env, altitude: (real, real) -> Altitude)
    requires req.command == Post && env.outputAllocated && env.copyComplete
    requires req.input.Some? && |req.input.value| > 0
    requires env.parse(req.input.value).Some? && env.parse(req.input.value).value != Null
    requires !env.parse(req.input.value).value.Array?
    ensures Respond(req, env, altitude) == SendError(400)
  {
  }

  /** An empty array is answered with exactly "[]" and no altitude is looked up. */
  lemma EmptyArrayAnswer(req: Request, env: Env, altitude: (real, real) -> Altitude, other: (real, real) -> Altitude)
    requires req.command == Post && env.outputAllocated && env.copyComplete && env.outputWritable
    requires req.input.Some? && |req.input.value| > 0 && env.parse(req.input.value) == Some(Array([]))
    ensures Respond(req, env, altitude) == SendReply(200, ContentType, "[]")
    ensures Respond(req, env, other) == Respond(req, env, altitude)
  {
  }

  /** One malformed element anywhere refuses the whole batch with 400 and no result. */
  lemma {:induction false} MalformedElementRefusesBatch(req: Request, env: Env, altitude: (real, real) -> Altitude, k: nat)
    requires req.command == Post && env.outputAllocated && env.copyComplete && env.resultAllocated
    requires req.input.Some? && |req.input.value| > 0
    requires env.parse(req.input.value).Some? && env.parse(req.input.value).value.Array?
    requires var elems := env.parse(req.input.value).value.elems;
      k < |elems| && !WellFormedPair(elems[k], env)
    ensures Respond(req, env, altitude) == SendError(400)
  {
    var elems := env.parse(req.input.value).value.elems;
    assert Batch(elems, env, altitude).None?;
  }

  /**
    A successful non-empty batch answers with the serialized result array and
    a newline; the array has one entry per input pair, in input order, null
    exactly where the registry has no data.
   */
  lemma {:induction false} SuccessfulBatch(req: Request, env: Env, altitude: (real, real) -> Altitude)
    requires Respond(req, env, altitude).SendReply?
    requires env.parse(req.input.value).value.elems != []
    ensures var elems := env.parse(req.input.value).value.elems;
      exists result: seq<Json> ::
        && Respond(req, env, altitude).body == env.serialize(Array(result)) + "\n"
        && |result| == |elems|
        && forall k :: 0 <= k < |elems| ==>
             && WellFormedPair(elems[k], env)
             && var (x, y) := (env.readDouble(elems[k].elems[0]).value, env.readDouble(elems[k].elems[1]).value);
                result[k] == (if altitude(x, y).Alt? then Number(altitude(x, y).value) else Null)
  {
    var elems := env.parse(req.input.value).value.elems;
    var result := Batch(elems, env, altitude).value;
    assert Respond(req, env, altitude).body == env.serialize(Array(result)) + "\n";
  }

  /** The two-point example: a covered point and an uncovered one give [42.5, null]. */
  lemma CoveredAndUncoveredPoints(req: Request, env: Env, altitude: (real, real) -> Altitude)
    requires req.command == Post && env.outputAllocated && env.copyComplete
    requires env.resultAllocated && env.outputWritable
    requires req.input.Some? && |req.input.value| > 0
    requires env.parse(req.input.value) ==
      Some(Array([Array([Number(1.0), Number(2.0)]), Array([Number(999.0), Number(999.0)])]))
    requires forall r: real :: env.readDouble(Number(r)) == Some(r)
    requires altitude(1.0, 2.0) == Alt(42.5) && altitude(999.0, 999.0) == NoData
    ensures Respond(req, env, altitude) ==
      SendReply(200, ContentType, env.serialize(Array([Number(42.5), Null])) + "\n")
  {
    var elems := env.parse(req.input.value).value.elems;
    assert env.readDouble(Number(1.0)) == Some(1.0) && env.readDouble(Number(2.0)) == Some(2.0);
    assert env.readDouble(Number(999.0)) == Some(999.0);
    assert WellFormedPair(elems[0], env) && WellFormedPair(elems[1], env);
    var result := Batch(elems, env, altitude).value;
    assert result[0] == Number(42.5) && result[1] == Null;
    assert result == [Number(42.5), Null];
  }
}
