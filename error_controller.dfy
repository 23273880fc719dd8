/**
 * The error-handling middleware: it fills in a missing status code and status, then either
 * returns everything about the error (development), or classifies known library errors into
 * operational AppErrors and hides the details of everything else (production).
 */
module ErrorController {
  import opened Wrappers
  import opened Text
  import opened AppErrors

  predicate IsQuote(c: char) { c == '"' || c == '\'' }

  /** The characters JavaScript's `.` does not match. */
  predicate IsLineTerminator(c: char) {
    c == '\n' || c == '\r' || c == '\U{2028}' || c == '\U{2029}'
  }

  /**
   * Where the regular expression `(["'])(\\?.)*?\1` ends once its opening quote `q` has been
   * matched and the scan stands at `j`: the lazy loop tries the closing quote first, then an
   * escaped character, and backtracks to a lone backslash when the escaped path fails.
   */
  function ClosingFrom(s: string, q: char, j: nat): (r: Option<nat>)
    requires j <= |s|
    requires !IsLineTerminator(q)
    ensures r.Some? ==> j < r.value <= |s| && s[r.value - 1] == q
    ensures r.Some? ==> forall k :: j <= k < r.value ==> !IsLineTerminator(s[k])
    decreases |s| - j
  {
    if j == |s| then None
    else if s[j] == q then Some(j + 1)
    else if IsLineTerminator(s[j]) then None
    else if s[j] == '\\' && j + 1 < |s| && !IsLineTerminator(s[j + 1]) then
      var escaped := ClosingFrom(s, q, j + 2);
      if escaped.Some? then escaped else ClosingFrom(s, q, j + 1)
    else ClosingFrom(s, q, j + 1)
  }

  /** A match of the quoted-value expression starts at position k. */
  predicate OpensMatch(s: string, k: nat)
    requires k < |s|
  {
    IsQuote(s[k]) && ClosingFrom(s, s[k], k + 1).Some?
  }

  /** The leftmost match at or after i, as a start and an end position. */
  function QuotedFrom(s: string, i: nat): (r: Option<(nat, nat)>)
    requires i <= |s|
    ensures r.Some? ==> i <= r.value.0 && r.value.0 + 2 <= r.value.1 <= |s|
    ensures r.Some? ==> IsQuote(s[r.value.0]) && s[r.value.1 - 1] == s[r.value.0]
    ensures r.Some? ==> ClosingFrom(s, s[r.value.0], r.value.0 + 1) == Some(r.value.1)
    ensures r.Some? ==> forall k :: r.value.0 < k < r.value.1 ==> !IsLineTerminator(s[k])
    ensures forall k :: i <= k < (if r.Some? then r.value.0 else |s|) ==> !OpensMatch(s, k)
    decreases |s| - i
  {
    if i == |s| then None
    else if !IsQuote(s[i]) then QuotedFrom(s, i + 1)
    else
      var close := ClosingFrom(s, s[i], i + 1);
      if close.Some? then Some((i, close.value))
      else
        assert !OpensMatch(s, i);
        QuotedFrom(s, i + 1)
  }

  /** The match the regular expression reports runs from a to b: no earlier position opens one. */
  predicate LeftmostMatch(s: string, a: nat, b: nat) {
    a + 2 <= b <= |s| && (forall k :: 0 <= k < a ==> !OpensMatch(s, k)) &&
    IsQuote(s[a]) && ClosingFrom(s, s[a], a + 1) == Some(b)
  }

  /** `errmsg.match(/(["'])(\\?.)*?\1/)`: the first quoted substring, quotes included, if any. */
  function FirstQuoted(s: string): (r: Option<string>)
    ensures r.Some? ==> exists a: nat, b: nat :: LeftmostMatch(s, a, b) && r.value == s[a..b]
    ensures r.Some? ==> |r.value| >= 2 && IsQuote(r.value[0]) && r.value[|r.value| - 1] == r.value[0]
    ensures r.None? <==> forall k :: 0 <= k < |s| ==> !OpensMatch(s, k)
  {
    match QuotedFrom(s, 0)
    case None => None
    case Some((a, b)) =>
      assert OpensMatch(s, a);
      assert LeftmostMatch(s, a, b);
      Some(s[a..b])
  }

  /** A malformed identifier becomes a 400 naming the path and the value. */
  function HandleCastErrorDB(err: ErrorValue, trace: string): (e: ErrorValue)
    ensures e.isOperational && e.statusCode == Some(400) && e.status == Some("fail")
    ensures e.message == "invalid " + err.path + ": " + err.value
  {
    StandardCodes();
    AppError("invalid " + err.path + ": " + err.value, Some(400), trace)
  }

  /**
   * A duplicate unique field becomes a 400 quoting the offending value; None when the driver's
   * message holds no quoted value, where indexing the failed match throws a TypeError.
   */
  function HandleDuplicateFields(err: ErrorValue, trace: string): (e: Option<ErrorValue>)
    ensures e.None? <==> FirstQuoted(err.errmsg).None?
    ensures e.Some? ==> e.value.isOperational && e.value.statusCode == Some(400) && e.value.status == Some("fail")
    ensures e.Some? ==> e.value.message == "Duplicate field value " + FirstQuoted(err.errmsg).value + " please use another value"
  {
    StandardCodes();
    match FirstQuoted(err.errmsg)
    case None => None
    case Some(value) => Some(AppError("Duplicate field value " + value + " please use another value", Some(400), trace))
  }

  /** Failed validators become one 400 listing every field message. */
  function HandleValidationErrorDB(err: ErrorValue, trace: string): (e: ErrorValue)
    ensures e.isOperational && e.statusCode == Some(400) && e.status == Some("fail")
    ensures e.message == "Invalid input data. " + Join(err.fieldMessages, ". ")
  {
    StandardCodes();
    AppError("Invalid input data. " + Join(err.fieldMessages, ". "), Some(400), trace)
  }

  function HandleJWTError(trace: string): (e: ErrorValue)
    ensures e.isOperational && e.statusCode == Some(401) && e.status == Some("fail")
    ensures e.message == "Invalid token please login again"
  {
    StandardCodes();
    AppError("Invalid token please login again", Some(401), trace)
  }

  function HandleJWTExpiredError(trace: string): (e: ErrorValue)
    ensures e.isOperational && e.statusCode == Some(401) && e.status == Some("fail")
    ensures e.message == "Your token has expired. Please login again"
  {
    StandardCodes();
    AppError("Your token has expired. Please login again", Some(401), trace)
  }

  /** The error names and the driver code the production branch recognises. */
  predicate Recognised(err: ErrorValue) {
    err.name in {"CastError", "ValidationError", "JsonWebTokenError", "TokenExpiredError"} || err.code == Some(11000)
  }

  /** What the client receives. */
  datatype Body =
    | DevBody(status: string, error: ErrorValue, message: string, stack: string)
    | ProdBody(status: string, message: string)

  datatype Response = Response(statusCode: int, body: Body)

  /** What the middleware does: answer, leave the request unanswered, or throw itself. */
  datatype Handled = Sent(response: Response) | NoResponse | HandlerThrew

  const GenericMessage := "something went very wrong!"

  /** Development: the status, the whole error, its message and its stack. */
  function SendErrorDev(err: ErrorValue): (r: Response)
    requires err.statusCode.Some? && err.status.Some?
    ensures r.statusCode == err.statusCode.value
    ensures r.body == DevBody(err.status.value, err, err.message, err.stack)
  {
    Response(err.statusCode.value, DevBody(err.status.value, err, err.message, err.stack))
  }

  /** Production: an operational error's own status and message, else a generic 500. */
  function SendErrorProd(err: ErrorValue): (r: Response)
    requires err.statusCode.Some? && err.status.Some?
    ensures err.isOperational ==> r == Response(err.statusCode.value, ProdBody(err.status.value, err.message))
    ensures !err.isOperational ==> r == Response(500, ProdBody("error", GenericMessage))
  {
    if err.isOperational then Response(err.statusCode.value, ProdBody(err.status.value, err.message))
    else Response(500, ProdBody("error", GenericMessage))
  }

  /**
   * The production branch on the spread copy of the error: the first matching handler in the
   * order CastError, code 11000, ValidationError, JsonWebTokenError, TokenExpiredError replaces
   * the error, and the result is sent as in production.
   */
  method RespondInProduction(error: ErrorValue, trace: string) returns (out: Handled)
    requires error.statusCode.Some? && error.status.Some?
    ensures error.name == "CastError" ==>
      out == Sent(Response(400, ProdBody("fail", "invalid " + error.path + ": " + error.value)))
    ensures error.name != "CastError" && error.code == Some(11000) ==>
      out == match FirstQuoted(error.errmsg)
             case None => HandlerThrew
             case Some(v) => Sent(Response(400, ProdBody("fail", "Duplicate field value " + v + " please use another value")))
    ensures error.name == "ValidationError" && error.code != Some(11000) ==>
      out == Sent(Response(400, ProdBody("fail", "Invalid input data. " + Join(error.fieldMessages, ". "))))
    ensures error.name == "JsonWebTokenError" && error.code != Some(11000) ==>
      out == Sent(Response(401, ProdBody("fail", "Invalid token please login again")))
    ensures error.name == "TokenExpiredError" && error.code != Some(11000) ==>
      out == Sent(Response(401, ProdBody("fail", "Your token has expired. Please login again")))
    ensures !Recognised(error) && error.isOperational ==>
      out == Sent(Response(error.statusCode.value, ProdBody(error.status.value, error.message)))
    ensures !Recognised(error) && !error.isOperational ==>
      out == Sent(Response(500, ProdBody("error", GenericMessage)))
  {
    var handled := error;
    if error.name == "CastError" {
      handled := HandleCastErrorDB(error, trace);
    } else if error.code == Some(11000) {
      var dup := HandleDuplicateFields(error, trace);
      if dup.None? {
        return HandlerThrew;
      }
      handled := dup.value;
    } else if error.name == "ValidationError" {
      handled := HandleValidationErrorDB(error, trace);
    } else if error.name == "JsonWebTokenError" {
      handled := HandleJWTError(trace);
    } else if error.name == "TokenExpiredError" {
      handled := HandleJWTExpiredError(trace);
    }
    out := Sent(SendErrorProd(handled));
  }

  /**
   * The exported middleware. `updated` is `err` after the handler's in-place defaults; `trace`
   * is the call stack captured by the AppErrors it creates.
   */
  method GlobalErrorHandler(err: ErrorValue, nodeEnv: string, trace: string) returns (updated: ErrorValue, out: Handled)
    ensures updated == err.(
      statusCode := if err.statusCode.Some? && err.statusCode.value != 0 then err.statusCode else Some(500),
      status := if err.status.Some? && err.status.value != "" then err.status else Some("error"))
    ensures nodeEnv == "development" ==>
      out == Sent(Response(updated.statusCode.value, DevBody(updated.status.value, updated, err.message, err.stack)))
    ensures nodeEnv != "development" && nodeEnv != "production" ==> out == NoResponse
    ensures nodeEnv == "production" && updated.name == "CastError" ==>
      out == Sent(Response(400, ProdBody("fail", "invalid " + updated.path + ": " + updated.value)))
    ensures nodeEnv == "production" && updated.name != "CastError" && updated.code == Some(11000) ==>
      out == match FirstQuoted(updated.errmsg)
             case None => HandlerThrew
             case Some(v) => Sent(Response(400, ProdBody("fail", "Duplicate field value " + v + " please use another value")))
    ensures nodeEnv == "production" && updated.name == "ValidationError" && updated.code != Some(11000) ==>
      out == Sent(Response(400, ProdBody("fail", "Invalid input data. " + Join(updated.fieldMessages, ". "))))
    ensures nodeEnv == "production" && updated.name == "JsonWebTokenError" && updated.code != Some(11000) ==>
      out == Sent(Response(401, ProdBody("fail", "Invalid token please login again")))
    ensures nodeEnv == "production" && updated.name == "TokenExpiredError" && updated.code != Some(11000) ==>
      out == Sent(Response(401, ProdBody("fail", "Your token has expired. Please login again")))
    ensures nodeEnv == "production" && !Recognised(updated) && updated.isOperational ==>
      out == Sent(Response(updated.statusCode.value, ProdBody(updated.status.value, updated.message)))
    ensures nodeEnv == "production" && !Recognised(updated) && !updated.isOperational ==>
      out == Sent(Response(500, ProdBody("error", GenericMessage)))
  {
    assert "development"[0] != "production"[0];  // the two environments are told apart
    updated := err;
    if !(updated.statusCode.Some? && updated.statusCode.value != 0) {
      updated := updated.(statusCode := Some(500));
    }
    if !(updated.status.Some? && updated.status.value != "") {
      updated := updated.(status := Some("error"));
    }

    if nodeEnv == "development" {
      out := Sent(SendErrorDev(updated));
    } else if nodeEnv == "production" {
      // the spread copy keeps every own field and the message is copied back, so it equals `updated`
      out := RespondInProduction(updated, trace);
    } else {
      out := NoResponse;
    }
  }
}
