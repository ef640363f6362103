/**
 * The RPC exception filter: it turns the payload of a caught RPC error into
 * one HTTP response, a status and a JSON body. A payload shaped like an
 * error (an object with `statusCode` and `message`) is sent back as it is,
 * with its own status code when that coerces to a number and 400 otherwise;
 * any other payload is wrapped as `{statusCode: 400, error: payload}`.
 *
 * The response is returned as a value instead of being written to the
 * transport.
 */
module RpcExceptionFilter {
  import opened JsValues

  /** The one `res.status(status).json(body)` call the filter makes. */
  datatype Response = Response(status: Value, body: Value)

  /** What the filter as written does: respond, or throw out of `catch`. */
  datatype FilterOutcome = Responded(response: Response) | Threw(error: Value)

  const BadRequest: int := 400

  /** The message V8 gives when the `in` operator is applied to null. */
  const InOnNullMessage: string := "Cannot use 'in' operator to search for 'statusCode' in null"

  /** The message V8 gives when unary plus cannot convert an object to a primitive. */
  const ToPrimitiveMessage: string := "Cannot convert object to primitive value"

  /** The payload is an object that has both a `statusCode` and a `message` property. */
  predicate IsErrorShaped(payload: Value) {
    payload.Obj? && "statusCode" in payload.fields && "message" in payload.fields
  }

  /**
   * The body sent for a payload that is not shaped like an error: it keeps
   * the payload under `error` and is itself not shaped like an error.
   */
  function Wrapped(payload: Value): (r: Value)
    ensures r.Obj? && r.fields.Keys == {"statusCode", "error"}
    ensures r.fields["statusCode"] == Num(BadRequest) && r.fields["error"] == payload
    ensures !IsErrorShaped(r)
  {
    Obj(map["statusCode" := Num(BadRequest), "error" := payload])
  }

  /** The status of a pass-through response: the payload's own code unless it coerces to NaN. */
  function PassThroughStatus(statusCode: Value): (status: Value)
    ensures !CoercesToNaN(status)
    ensures status == statusCode || status == Num(BadRequest)
    ensures status == statusCode <==> !CoercesToNaN(statusCode)
  {
    if CoercesToNaN(statusCode) then Num(BadRequest) else statusCode
  }

  /**
   * `catch` exactly as written. `typeof null` is 'object', so a null payload
   * reaches `'statusCode' in rpcError`, which throws a TypeError on null; and
   * `+rpcError.statusCode` throws on a code that cannot be converted to a
   * primitive.
   */
  function CatchAsWritten(rpcError: Value): (r: FilterOutcome)
    ensures r.Threw? <==>
      rpcError.Null? || (IsErrorShaped(rpcError) && ToPrimitiveThrows(rpcError.fields["statusCode"]))
  {
    if IsTypeofObject(rpcError) then
      if rpcError.Null? then
        Threw(Obj(map["name" := Str("TypeError"), "message" := Str(InOnNullMessage)]))
      else if HasProperty(rpcError, "statusCode") && HasProperty(rpcError, "message") then
        if ToPrimitiveThrows(rpcError.fields["statusCode"]) then
          Threw(Obj(map["name" := Str("TypeError"), "message" := Str(ToPrimitiveMessage)]))
        else
          Responded(Response(PassThroughStatus(rpcError.fields["statusCode"]), rpcError))
      else
        Responded(Response(Num(BadRequest), Wrapped(rpcError)))
    else
      Responded(Response(Num(BadRequest), Wrapped(rpcError)))
  }

  /**
   * `catch` as intended: null, like every other payload that is not shaped like
   * an error, is answered with 400 and wrapped; a status code that cannot be
   * converted is, like any other that is not a number, replaced by 400.
   */
  function Catch(rpcError: Value): (r: Response)
    ensures IsErrorShaped(rpcError) ==> r.body == rpcError
    ensures IsErrorShaped(rpcError) && !CoercesToNaN(rpcError.fields["statusCode"])
            ==> r.status == rpcError.fields["statusCode"]
    ensures IsErrorShaped(rpcError) && CoercesToNaN(rpcError.fields["statusCode"])
            ==> r.status == Num(BadRequest)
    ensures !IsErrorShaped(rpcError)
            ==> r.status == Num(BadRequest) && r.body.Obj? && r.body.fields.Keys == {"statusCode", "error"}
                && r.body.fields["statusCode"] == Num(BadRequest) && r.body.fields["error"] == rpcError
  {
    if IsErrorShaped(rpcError) then
      Response(PassThroughStatus(rpcError.fields["statusCode"]), rpcError)
    else
      Response(Num(BadRequest), Wrapped(rpcError))
  }

  /** The as-written filter throws instead of responding when the payload is null. */
  lemma NullPayloadThrows()
    ensures CatchAsWritten(Null).Threw?
    ensures Catch(Null) == Response(Num(BadRequest), Obj(map["statusCode" := Num(BadRequest), "error" := Null]))
  {
  }

  /**
   * On every payload but null and an error-shaped one whose status code cannot
   * be converted, the as-written filter gives the intended response.
   */
  lemma CatchAgreesWhereWrittenResponds(rpcError: Value)
    requires !rpcError.Null?
    requires !(IsErrorShaped(rpcError) && ToPrimitiveThrows(rpcError.fields["statusCode"]))
    ensures CatchAsWritten(rpcError) == Responded(Catch(rpcError))
  {
  }

  /**
   * A status code that is an object with its own `toString` key makes the
   * as-written filter throw at `+rpcError.statusCode`; the intended one sends
   * 400 with the payload as the body.
   */
  lemma UncoercibleStatusThrows()
    ensures var e := Obj(map["statusCode" := Obj(map["toString" := Num(1)]), "message" := Str("m")]);
      CatchAsWritten(e).Threw? && Catch(e) == Response(Num(BadRequest), e)
  {
  }

  /**
   * The status sent is always either 400 or the payload's own `statusCode`,
   * never NaN, and the body of every response has a `statusCode` property.
   */
  lemma CatchStatusOrigin(rpcError: Value)
    ensures var r := Catch(rpcError);
      (r.status == Num(BadRequest) || (IsErrorShaped(rpcError) && r.status == rpcError.fields["statusCode"]))
      && !CoercesToNaN(r.status)
      && r.body.Obj? && "statusCode" in r.body.fields
  {
  }

  /**
   * A number status code passes through; so does one written as a decimal
   * string such as "404", which is sent as that string.
   */
  lemma NumericStatusPassesThrough(rpcError: Value)
    requires IsErrorShaped(rpcError)
    requires rpcError.fields["statusCode"].Num?
             || (rpcError.fields["statusCode"].Str? && IsDecimalDigits(rpcError.fields["statusCode"].s))
    ensures Catch(rpcError) == Response(rpcError.fields["statusCode"], rpcError)
  {
    var sc := rpcError.fields["statusCode"];
    if sc.Str? {
      DecimalDigitsAreNumeric(sc.s);
    }
  }

  /** A status code that is not a number, such as "abc", is replaced by 400. */
  lemma NonNumericStatusBecomes400(message: Value)
    ensures var e := Obj(map["statusCode" := Str("abc"), "message" := message]);
      Catch(e) == Response(Num(BadRequest), e)
  {
    LetterStringIsNaN();
  }

  /**
   * Filtering the body of a wrapped response wraps it again: the wrapper has
   * no `message`, so the filter does not leave its own output unchanged.
   */
  lemma WrappedBodyIsWrappedAgain(rpcError: Value)
    requires !IsErrorShaped(rpcError)
    ensures Catch(Catch(rpcError).body) == Response(Num(BadRequest), Wrapped(Wrapped(rpcError)))
  {
  }

  /** A pass-through body is a fixed point: filtering it again gives the same response. */
  lemma PassThroughIsStable(rpcError: Value)
    requires IsErrorShaped(rpcError)
    ensures Catch(Catch(rpcError).body) == Catch(rpcError)
  {
  }
}
