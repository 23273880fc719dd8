/**
 * Errors as the error-handling middleware receives them: the application's own AppError and the
 * shapes thrown by the token library and the document mapper.
 */
module AppErrors {
  import opened Wrappers
  import opened Text

  /**
   * The fields of a thrown error that the error handler reads. `statusCode` and `status` are
   * None when the error does not carry them; `code`, `path`, `value`, `errmsg` and
   * `fieldMessages` are only meaningful for the document mapper's and the driver's errors.
   */
  datatype ErrorValue = ErrorValue(
    name: string,
    message: string,
    statusCode: Option<int>,
    status: Option<string>,
    isOperational: bool,
    code: Option<int>,
    path: string,
    value: string,
    errmsg: string,
    fieldMessages: seq<string>,
    stack: string)

  /** `${statusCode}`: the decimal text, or "undefined" when no status code was given. */
  function CodeText(statusCode: Option<int>): string {
    match statusCode
    case None => "undefined"
    case Some(n) => DecimalText(n)
  }

  /** The status derived in the AppError constructor from the text of the status code. */
  function StatusFor(statusCode: Option<int>): string {
    if StartsWith(CodeText(statusCode), "4") then "fail" else "error"
  }

  /**
   * `new AppError(message, statusCode)`: message and status code kept as given, the status
   * derived from the code, always operational. `trace` is the call stack the runtime captures.
   */
  function AppError(message: string, statusCode: Option<int>, trace: string): (e: ErrorValue)
    ensures e.message == message && e.statusCode == statusCode
    ensures e.isOperational
    ensures e.status == Some(if StartsWith(CodeText(statusCode), "4") then "fail" else "error")
  {
    ErrorValue("Error", message, statusCode, Some(StatusFor(statusCode)), true, None, "", "", "", [], trace)
  }

  /** An error thrown by a library or the runtime: not operational, no status code. */
  function LibraryError(name: string, message: string, trace: string): (e: ErrorValue)
    ensures e.name == name && !e.isOperational && e.statusCode == None && e.status == None
  {
    ErrorValue(name, message, None, None, false, None, "", "", "", [], trace)
  }

  /** The document mapper's error for an identifier it cannot cast. */
  function CastError(path: string, value: string, message: string, trace: string): ErrorValue {
    ErrorValue("CastError", message, None, None, false, None, path, value, "", [], trace)
  }

  /** The driver's error for a violated unique index; `errmsg` is the driver's text. */
  function DuplicateKeyError(errmsg: string, trace: string): ErrorValue {
    ErrorValue("MongoError", errmsg, None, None, false, Some(11000), "", "", errmsg, [], trace)
  }

  /** The document mapper's error for failed schema validators, one message per failing path. */
  function ValidationError(message: string, fieldMessages: seq<string>, trace: string): ErrorValue {
    ErrorValue("ValidationError", message, None, None, false, None, "", "", "", fieldMessages, trace)
  }

  /** The most significant decimal digit of a natural number. */
  function LeadingDigit(n: nat): (d: nat)
    ensures d < 10
    decreases n
  {
    if n < 10 then n else LeadingDigit(n / 10)
  }

  lemma {:induction false} NatTextStartsWithLeadingDigit(n: nat)
    ensures NatText(n)[0] == DigitChar(LeadingDigit(n))
    decreases n
  {
    if n >= 10 {
      NatTextStartsWithLeadingDigit(n / 10);
    }
  }

  /** The status is "fail" exactly for non-negative codes whose leading digit is 4. */
  lemma StatusByLeadingDigit(n: int)
    ensures StatusFor(Some(n)) == "fail" <==> n >= 0 && LeadingDigit(n) == 4
  {
    if n >= 0 {
      NatTextStartsWithLeadingDigit(n);
      assert CodeText(Some(n))[..1] == [DigitChar(LeadingDigit(n))];
    } else {
      assert CodeText(Some(n))[0] == '-';
    }
  }

  /** Among three-digit HTTP codes, exactly the 4xx ones give "fail". */
  lemma ThreeDigitCodes(n: int)
    requires 100 <= n < 1000
    ensures StatusFor(Some(n)) == "fail" <==> 400 <= n < 500
  {
    StatusByLeadingDigit(n);
    assert LeadingDigit(n) == LeadingDigit(n / 10) == LeadingDigit(n / 100) == n / 100;
  }

  /** The codes the application passes, and the omitted code, get the expected statuses. */
  lemma StandardCodes()
    ensures StatusFor(Some(400)) == "fail" && StatusFor(Some(401)) == "fail"
    ensures StatusFor(Some(403)) == "fail" && StatusFor(Some(404)) == "fail"
    ensures StatusFor(Some(500)) == "error"
    ensures StatusFor(None) == "error"
  {
    ThreeDigitCodes(400);
    ThreeDigitCodes(401);
    ThreeDigitCodes(403);
    ThreeDigitCodes(404);
    ThreeDigitCodes(500);
    assert CodeText(None)[0] == 'u';
  }
}
