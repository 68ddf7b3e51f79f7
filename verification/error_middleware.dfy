/**
 * The error handling of the HTTP server: the `AppError` an operation raises,
 * the factories that turn database and token errors into one, and the
 * middleware that picks the response for any thrown error.
 */
module ErrorMiddleware {
  import opened Common

  /** An application error: message, HTTP code, "fail"/"error", and whether it is expected. */
  datatype AppError = AppError(message: string, statusCode: int, status: string, isOperational: bool)

  /** The first digit of the decimal text of a natural number. */
  function LeadingDigit(n: nat): (d: nat)
    ensures d < 10 && (n > 0 ==> d > 0)
    decreases n
  {
    if n < 10 then n else LeadingDigit(n / 10)
  }

  /** The decimal text of a number begins with the character of its leading digit. */
  lemma {:induction false} NatToStringStartsWithLeadingDigit(n: nat)
    ensures NatToString(n)[0] == DigitChar(LeadingDigit(n))
    decreases n
  {
    if n >= 10 {
      NatToStringStartsWithLeadingDigit(n / 10);
      assert NatToString(n) == NatToString(n / 10) + [DigitChar(n % 10)];
    }
  }

  /**
   * `new AppError(message, statusCode)`: the status is "fail" when the
   * decimal text of the code starts with '4' and "error" otherwise; the
   * error is always operational.
   */
  function NewAppError(message: string, statusCode: int): (e: AppError)
    ensures e.message == message && e.statusCode == statusCode && e.isOperational
    ensures e.status == "fail" <==> statusCode >= 0 && LeadingDigit(statusCode) == 4
    ensures e.status == "fail" || e.status == "error"
  {
    var text := IntToString(statusCode);
    assert statusCode >= 0 ==> text[0] == DigitChar(LeadingDigit(statusCode)) by {
      if statusCode >= 0 {
        NatToStringStartsWithLeadingDigit(statusCode);
      }
    }
    AppError(message, statusCode, if StartsWith(text, "4") then "fail" else "error", true)
  }

  /** Every client error code (4xx) makes a "fail", every server error code (5xx) an "error". */
  lemma {:induction false} ClientAndServerCodes(message: string, code: int)
    ensures 400 <= code < 500 ==> NewAppError(message, code).status == "fail"
    ensures 500 <= code < 600 ==> NewAppError(message, code).status == "error"
  {
    if 400 <= code < 600 {
      assert LeadingDigit(code) == LeadingDigit(code / 10);
      assert LeadingDigit(code / 10) == LeadingDigit(code / 100);
    }
  }

  /** `handleCastErrorDB`: a 400 naming the path and the value that would not cast. */
  function CastError(path: string, value: string): (e: AppError)
    ensures e.statusCode == 400 && e.status == "fail" && e.isOperational
    ensures e.message == "Invalid " + path + ": " + value
  {
    ClientAndServerCodes("Invalid " + path + ": " + value, 400);
    NewAppError("Invalid " + path + ": " + value, 400)
  }

  /** `errors.join(". ")`. */
  function JoinMessages(messages: seq<string>): (r: string)
    ensures messages == [] ==> r == ""
    ensures |messages| == 1 ==> r == messages[0]
    decreases |messages|
  {
    if messages == [] then ""
    else if |messages| == 1 then messages[0]
    else JoinMessages(messages[..|messages| - 1]) + ". " + messages[|messages| - 1]
  }

  /** `handleDuplicateFieldsDB`, given the quoted value it extracts from the database message. */
  function DuplicateFieldError(quotedValue: string): (e: AppError)
    ensures e.statusCode == 400 && e.status == "fail" && e.isOperational
    ensures e.message == "Duplicate field value: " + quotedValue + ". Please use another value!"
  {
    ClientAndServerCodes("Duplicate field value: " + quotedValue + ". Please use another value!", 400);
    NewAppError("Duplicate field value: " + quotedValue + ". Please use another value!", 400)
  }

  /** `handleValidationErrorDB`: a 400 listing every field's message. */
  function ValidationError(messages: seq<string>): (e: AppError)
    ensures e.statusCode == 400 && e.status == "fail" && e.isOperational
    ensures e.message == "Invalid input data. " + JoinMessages(messages)
  {
    ClientAndServerCodes("Invalid input data. " + JoinMessages(messages), 400);
    NewAppError("Invalid input data. " + JoinMessages(messages), 400)
  }

  const InvalidTokenMessage: string := "Invalid token. Please log in again!"
  const ExpiredTokenMessage: string := "Your token has expired! Please log in again."

  /** `handleJWTError`. */
  function JwtError(): (e: AppError)
    ensures e == AppError(InvalidTokenMessage, 401, "fail", true)
  {
    ClientAndServerCodes(InvalidTokenMessage, 401);
    NewAppError(InvalidTokenMessage, 401)
  }

  /** `handleJWTExpiredError`. */
  function JwtExpiredError(): (e: AppError)
    ensures e == AppError(ExpiredTokenMessage, 401, "fail", true)
  {
    ClientAndServerCodes(ExpiredTokenMessage, 401);
    NewAppError(ExpiredTokenMessage, 401)
  }

  /** The database error classes the middleware recognises. */
  datatype ErrorClass =
    | CastFailure(path: string, value: string)
    | ValidationFailure(messages: seq<string>)
    | OtherClass

  /**
   * A thrown error as the middleware sees it: its class, `name`, `code`,
   * message, and the `statusCode`, `status` and `isOperational` it carries
   * (absent ones are `None`; a 0 code and an empty status count as absent).
   * `quotedValue` is the first quoted string of a duplicate-key message.
   */
  datatype ThrownError = ThrownError(
    errorClass: ErrorClass,
    name: string,
    code: Option<int>,
    message: string,
    statusCode: Option<int>,
    status: Option<string>,
    isOperational: bool,
    quotedValue: string)

  /** The JSON body and HTTP code of the reply. */
  datatype Response = Response(code: int, status: string, message: string)

  function DefaultCode(err: ThrownError): (c: int)
    ensures err.statusCode.Some? && err.statusCode.value != 0 ==> c == err.statusCode.value
    ensures err.statusCode.None? || err.statusCode.value == 0 ==> c == 500
  {
    if err.statusCode.Some? && err.statusCode.value != 0 then err.statusCode.value else 500
  }

  function DefaultStatus(err: ThrownError): (s: string)
    ensures err.status.Some? && err.status.value != "" ==> s == err.status.value
    ensures err.status.None? || err.status.value == "" ==> s == "error"
  {
    if err.status.Some? && err.status.value != "" then err.status.value else "error"
  }

  const GenericMessage: string := "Something went wrong"

  /**
   * `errorMiddleware`. In development the error's own code (500 when
   * missing), status ("error" when missing) and message are sent. In
   * production the checks run in order and a later match replaces an
   * earlier one, so the expired-token error wins over the bad token, which
   * wins over a validation error, then a duplicate key, then a cast error;
   * an error none of them claims is sent as it is when operational, and as
   * a bare 500 "Something went wrong" otherwise.
   */
  method Respond(err: ThrownError, development: bool) returns (res: Response)
    ensures development ==> res == Response(DefaultCode(err), DefaultStatus(err), err.message)
    ensures !development && err.name == "TokenExpiredError" ==> res == Response(401, "fail", ExpiredTokenMessage)
    ensures !development && err.name == "JsonWebTokenError" ==> res == Response(401, "fail", InvalidTokenMessage)
    ensures !development && err.errorClass.ValidationFailure? && err.name != "TokenExpiredError" && err.name != "JsonWebTokenError"
            ==> res == Response(400, "fail", "Invalid input data. " + JoinMessages(err.errorClass.messages))
    ensures !development && err.code == Some(11000) && !err.errorClass.ValidationFailure? && err.name != "TokenExpiredError" && err.name != "JsonWebTokenError"
            ==> res == Response(400, "fail", "Duplicate field value: " + err.quotedValue + ". Please use another value!")
    ensures !development && err.errorClass.CastFailure? && err.code != Some(11000) && err.name != "TokenExpiredError" && err.name != "JsonWebTokenError"
            ==> res == Response(400, "fail", "Invalid " + err.errorClass.path + ": " + err.errorClass.value)
    ensures !development && err.errorClass.OtherClass? && err.code != Some(11000) && err.name != "TokenExpiredError" && err.name != "JsonWebTokenError"
            ==> res == (if err.isOperational then Response(DefaultCode(err), DefaultStatus(err), err.message)
                        else Response(500, "error", GenericMessage))
    ensures !development ==> res.code == 500 || res.code == 400 || res.code == 401 || res.code == DefaultCode(err)
  {
    var statusCode := DefaultCode(err);
    var status := DefaultStatus(err);
    if development {
      return Response(statusCode, status, err.message);
    }
    var error := AppError(err.message, statusCode, status, err.isOperational);
    if err.errorClass.CastFailure? {
      error := CastError(err.errorClass.path, err.errorClass.value);
    }
    if err.code == Some(11000) {
      error := DuplicateFieldError(err.quotedValue);
    }
    if err.errorClass.ValidationFailure? {
      error := ValidationError(err.errorClass.messages);
    }
    if err.name == "JsonWebTokenError" {
      error := JwtError();
    }
    if err.name == "TokenExpiredError" {
      error := JwtExpiredError();
    }
    if error.isOperational {
      res := Response(error.statusCode, error.status, error.message);
    } else {
      res := Response(500, "error", GenericMessage);
    }
  }
}
