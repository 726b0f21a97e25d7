/**
 * middleware/errorHandler.js: the global Express error handler. It starts from the
 * error's own status code, message and status (with defaults), lets a sequence of
 * rules overwrite them, and answers with `success: false` and, in development only,
 * the stack trace.
 */
module ErrorHandler {
  import opened Wrappers
  import opened Text
  import AppErrors

  /** `err.code`: absent, a number (the MongoDB duplicate-key code) or a text (Multer's codes). */
  datatype Code = NoCode | NumberCode(n: int) | TextCode(s: string)

  /**
   * The fields of a thrown error that the handler reads. `statusCode == 0`, `status == ""`
   * and `message == ""` stand for absent values, which `||` treats like those falsy ones.
   * `errors` holds the messages of `Object.values(err.errors)` in order and `keyValueKeys`
   * the keys of `err.keyValue`; `None` means the property is absent.
   */
  datatype ErrorRecord = ErrorRecord(
    name: string,
    code: Code,
    statusCode: int,
    status: string,
    message: string,
    errors: Option<seq<string>>,
    keyValueKeys: Option<seq<string>>,
    path: string,
    value: string)

  datatype ErrorBody = ErrorBody(success: bool, status: string, message: string, hasStack: bool)

  /**
   * What the handler does: answer with a status code and body, or throw itself
   * (`Object.values`/`Object.keys` of an absent property raise a TypeError).
   */
  datatype HandlerResult = Respond(statusCode: int, body: ErrorBody) | Threw

  const FileTooLargeMessage := "File too large. Maximum size is 5MB."
  const InvalidTokenMessage := "Invalid token. Please log in again."
  const ExpiredTokenMessage := "Token expired. Please log in again."

  predicate IsValidationError(err: ErrorRecord) { err.name == "ValidationError" }
  predicate IsCastError(err: ErrorRecord) { err.name == "CastError" }
  predicate IsDuplicateKey(err: ErrorRecord) { err.code == NumberCode(11000) }
  predicate IsJwtError(err: ErrorRecord) { err.name == "JsonWebTokenError" }
  predicate IsExpiredToken(err: ErrorRecord) { err.name == "TokenExpiredError" }
  predicate IsMulterError(err: ErrorRecord) { err.name == "MulterError" }

  predicate AnyRuleMatches(err: ErrorRecord) {
    IsValidationError(err) || IsCastError(err) || IsDuplicateKey(err)
    || IsJwtError(err) || IsExpiredToken(err) || IsMulterError(err)
  }

  function DefaultStatusCode(err: ErrorRecord): int { if err.statusCode != 0 then err.statusCode else 500 }
  function DefaultMessage(err: ErrorRecord): string { if err.message != "" then err.message else "Internal server error" }
  function DefaultStatus(err: ErrorRecord): string { if err.status != "" then err.status else "error" }

  /** The handler throws when a rule reads a property the error does not have. */
  predicate Throws(err: ErrorRecord) {
    (IsValidationError(err) && err.errors.None?) || (IsDuplicateKey(err) && err.keyValueKeys.None?)
  }

  /** Reference definition of the status code: the LAST rule that matches decides. */
  function FinalStatusCode(err: ErrorRecord): int {
    if IsMulterError(err) then 400
    else if IsExpiredToken(err) || IsJwtError(err) then 401
    else if IsDuplicateKey(err) then 409
    else if IsCastError(err) || IsValidationError(err) then 400
    else DefaultStatusCode(err)
  }

  /** Reference definition of the message: the last rule that sets one decides. */
  function FinalMessage(err: ErrorRecord): string
    requires !Throws(err)
  {
    if IsMulterError(err) && err.code == TextCode("LIMIT_FILE_SIZE") then FileTooLargeMessage
    else if IsExpiredToken(err) then ExpiredTokenMessage
    else if IsJwtError(err) then InvalidTokenMessage
    else if IsDuplicateKey(err) then "Duplicate value for: " + Join(err.keyValueKeys.value, ", ")
    else if IsCastError(err) then "Invalid " + err.path + ": " + err.value
    else if IsValidationError(err) then Join(err.errors.value, ". ")
    else DefaultMessage(err)
  }

  /** Reference definition of the whole answer. */
  function Classify(err: ErrorRecord, nodeEnv: string): HandlerResult {
    if Throws(err) then Threw
    else Respond(
      FinalStatusCode(err),
      ErrorBody(
        false,
        if AnyRuleMatches(err) then "fail" else DefaultStatus(err),
        FinalMessage(err),
        nodeEnv == "development"))
  }

  /**
   * `errorHandler(err, req, res, next)`: the locals are overwritten rule by rule in the
   * source's order; the result is the "last matching rule wins" reference answer.
   */
  method HandleError(err: ErrorRecord, nodeEnv: string) returns (r: HandlerResult)
    ensures r == Classify(err, nodeEnv)
  {
    var statusCode := if err.statusCode != 0 then err.statusCode else 500;
    var message := if err.message != "" then err.message else "Internal server error";
    var status := if err.status != "" then err.status else "error";

    if err.name == "ValidationError" {
      statusCode := 400;
      status := "fail";
      if err.errors.None? {
        return Threw;
      }
      message := Join(err.errors.value, ". ");
    }

    if err.name == "CastError" {
      statusCode := 400;
      status := "fail";
      message := "Invalid " + err.path + ": " + err.value;
    }

    if err.code == NumberCode(11000) {
      statusCode := 409;
      status := "fail";
      if err.keyValueKeys.None? {
        return Threw;
      }
      message := "Duplicate value for: " + Join(err.keyValueKeys.value, ", ");
    }

    if err.name == "JsonWebTokenError" {
      statusCode := 401;
      status := "fail";
      message := InvalidTokenMessage;
    }
    if err.name == "TokenExpiredError" {
      statusCode := 401;
      status := "fail";
      message := ExpiredTokenMessage;
    }

    if err.name == "MulterError" {
      statusCode := 400;
      status := "fail";
      if err.code == TextCode("LIMIT_FILE_SIZE") {
        message := FileTooLargeMessage;
      }
    }

    r := Respond(statusCode, ErrorBody(false, status, message, nodeEnv == "development"));
  }

  /** The body never reports success, and carries the stack exactly in development. */
  lemma BodyShape(err: ErrorRecord, nodeEnv: string)
    requires !Throws(err)
    ensures Classify(err, nodeEnv).Respond?
    ensures !Classify(err, nodeEnv).body.success
    ensures Classify(err, nodeEnv).body.hasStack <==> nodeEnv == "development"
  {
  }

  /** With no rule matching, the error's own values (or the defaults) are reported. */
  lemma NoRuleKeepsDefaults(err: ErrorRecord, nodeEnv: string)
    requires !AnyRuleMatches(err)
    ensures Classify(err, nodeEnv).Respond?
    ensures Classify(err, nodeEnv).statusCode == (if err.statusCode != 0 then err.statusCode else 500)
    ensures Classify(err, nodeEnv).body.message == (if err.message != "" then err.message else "Internal server error")
    ensures Classify(err, nodeEnv).body.status == (if err.status != "" then err.status else "error")
  {
  }

  /** A Mongoose ValidationError: 400, "fail", the sub-messages joined by ". " in order. */
  lemma ValidationErrorAnswer(err: ErrorRecord, nodeEnv: string)
    requires IsValidationError(err) && err.errors.Some? && !IsDuplicateKey(err)
    ensures Classify(err, nodeEnv) == Respond(400, ErrorBody(false, "fail", Join(err.errors.value, ". "), nodeEnv == "development"))
  {
  }

  /** A Mongoose CastError: 400, "fail", "Invalid <path>: <value>". */
  lemma CastErrorAnswer(err: ErrorRecord, nodeEnv: string)
    requires IsCastError(err) && !IsDuplicateKey(err)
    ensures Classify(err, nodeEnv) == Respond(400, ErrorBody(false, "fail", "Invalid " + err.path + ": " + err.value, nodeEnv == "development"))
  {
  }

  /** Duplicate key (code 11000): 409, "fail", the duplicated keys joined by ", ". */
  lemma DuplicateKeyAnswer(err: ErrorRecord, nodeEnv: string)
    requires IsDuplicateKey(err) && err.keyValueKeys.Some?
    requires !IsJwtError(err) && !IsExpiredToken(err) && !IsMulterError(err) && !IsValidationError(err)
    ensures Classify(err, nodeEnv) == Respond(409, ErrorBody(false, "fail", "Duplicate value for: " + Join(err.keyValueKeys.value, ", "), nodeEnv == "development"))
  {
  }

  /** Token errors: 401, "fail", with their fixed messages. */
  lemma TokenErrorAnswers(err: ErrorRecord, nodeEnv: string)
    requires IsJwtError(err) || IsExpiredToken(err)
    requires !(IsDuplicateKey(err) && err.keyValueKeys.None?)
    ensures Classify(err, nodeEnv).Respond?
    ensures Classify(err, nodeEnv).statusCode == 401 && Classify(err, nodeEnv).body.status == "fail"
    ensures Classify(err, nodeEnv).body.message == if IsJwtError(err) then InvalidTokenMessage else ExpiredTokenMessage
  {
  }

  /** Multer errors: 400, "fail"; the message is replaced only for LIMIT_FILE_SIZE. */
  lemma MulterErrorAnswer(err: ErrorRecord, nodeEnv: string)
    requires IsMulterError(err) && !IsDuplicateKey(err)
    ensures Classify(err, nodeEnv).Respond?
    ensures Classify(err, nodeEnv).statusCode == 400 && Classify(err, nodeEnv).body.status == "fail"
    ensures Classify(err, nodeEnv).body.message ==
      if err.code == TextCode("LIMIT_FILE_SIZE") then FileTooLargeMessage else DefaultMessage(err)
  {
  }

  /** A later rule overrides an earlier one: a duplicate-key TokenExpiredError answers 401. */
  lemma LaterRuleOverrides(err: ErrorRecord, nodeEnv: string)
    requires IsDuplicateKey(err) && err.keyValueKeys.Some? && IsExpiredToken(err)
    ensures Classify(err, nodeEnv) == Respond(401, ErrorBody(false, "fail", ExpiredTokenMessage, nodeEnv == "development"))
  {
  }

  /** The error record of a thrown AppError: its name is "Error" and it has no code. */
  function FromAppError(e: AppErrors.AppError): (err: ErrorRecord)
    ensures !AnyRuleMatches(err) && !Throws(err)
  {
    ErrorRecord("Error", NoCode, e.statusCode, e.status, e.message, None, None, "undefined", "undefined")
  }

  /** An AppError reaches the client with its own code, message and computed status. */
  lemma AppErrorAnswer(message: string, statusCode: int, nodeEnv: string)
    requires message != "" && statusCode != 0
    ensures var e := AppErrors.NewAppError(message, statusCode);
      Classify(FromAppError(e), nodeEnv) == Respond(statusCode, ErrorBody(false, e.status, message, nodeEnv == "development"))
  {
  }

  /** `new AppError("Not found", 404)` answers 404 with status "fail". */
  lemma NotFoundAppError(nodeEnv: string)
    ensures Classify(FromAppError(AppErrors.NewAppError("Not found", 404)), nodeEnv)
      == Respond(404, ErrorBody(false, "fail", "Not found", nodeEnv == "development"))
  {
    AppErrors.ClientErrorsFail("Not found", 404);
  }
}
