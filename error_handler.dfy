/**
 * The Express error middleware (middleware/error.js): it turns a failure
 * forwarded by a controller or raised by the data layer into an HTTP status
 * and a `{success: false, error}` body.
 *
 * The middleware keeps a local `error`, starts it as the shallow copy
 * `{...err}` and then runs three independent rules, each of which may replace
 * it with a fresh `ErrorResponse(message, statusCode)`; a later rule that
 * matches overrides an earlier one. The response reads `error.statusCode ||
 * 500` and `error.message || 'Server error'`.
 */
module ErrorMiddleware {
  import opened Wrappers

  /** One entry of a schema validation failure's `errors` object. */
  datatype FieldError = FieldError(path: string, message: string)

  /** A `message` value: a string, or the array the validation rule builds. */
  datatype Message = Text(text: string) | Texts(items: seq<string>)

  /**
   * The failure `err` handed to the middleware.
   * - `name`: `err.name` ("" when absent; the rules compare it to a string).
   * - `code`: `err.code` when it is a number.
   * - `value`: `err.value` as a template literal renders it.
   * - `errors`: `Object.values(err.errors)` in enumeration order, `None` when
   *   `err.errors` is undefined or null.
   * - `copiedStatus`, `copiedMessage`: the `statusCode` and `message` that the
   *   spread `{...err}` copies, that is, only enumerable own properties (an
   *   `Error`'s own `message` is not enumerable).
   * - `message`, `stack`: the failure's own text; the middleware only logs
   *   `stack` and never reads `message` from `err`.
   */
  datatype Failure = Failure(
    name: string,
    code: Option<int>,
    value: string,
    errors: Option<seq<FieldError>>,
    copiedStatus: Option<int>,
    copiedMessage: Option<Message>,
    message: string,
    stack: string)

  /** The record built by `new ErrorResponse(message, statusCode)`. */
  datatype ErrorResponse = ErrorResponse(message: Message, statusCode: int)

  /** The local `error`: the shallow copy of `err`, or a replacing ErrorResponse. */
  datatype ErrorLocal =
    | Copy(status: Option<int>, text: Option<Message>)
    | Replaced(response: ErrorResponse)

  /** The JSON body `{success, error}`. */
  datatype ErrorBody = ErrorBody(success: bool, error: Message)

  /**
   * What the middleware does: send a status and a body, or throw a TypeError
   * (`Object.values` of an undefined `errors`) before anything is sent.
   */
  datatype Outcome = Sent(status: int, body: ErrorBody) | TypeErrorThrown

  const CastErrorName := "CastError"
  const ValidationErrorName := "ValidationError"
  const DuplicateKeyCode := 11000
  const CastErrorPrefix := "Bootcamp not found with id of "
  const DuplicateMessage := "Duplicates fields entered"
  const DefaultMessage := "Server error"
  const DefaultStatus := 500

  /** JavaScript truthiness of a numeric `statusCode` property (0 and undefined are falsy). */
  predicate TruthyStatus(s: Option<int>) {
    s.Some? && s.value != 0
  }

  /** JavaScript truthiness of a `message` property: "" and undefined are falsy, every array is truthy. */
  predicate TruthyMessage(m: Option<Message>) {
    m.Some? && (m.value.Text? ==> m.value.text != "")
  }

  /** `Object.values(err.errors).map(val => val.message)`: one message per entry, in order. */
  function ValidationMessages(errs: seq<FieldError>): (ms: seq<string>)
    ensures |ms| == |errs|
    ensures forall i :: 0 <= i < |errs| ==> ms[i] == errs[i].message
  {
    if errs == [] then [] else [errs[0].message] + ValidationMessages(errs[1..])
  }

  /** `error.statusCode` */
  function StatusOf(error: ErrorLocal): Option<int> {
    match error
    case Copy(s, _) => s
    case Replaced(e) => Some(e.statusCode)
  }

  /** `error.message` */
  function MessageOf(error: ErrorLocal): Option<Message> {
    match error
    case Copy(_, m) => m
    case Replaced(e) => Some(e.message)
  }

  /** `res.status(error.statusCode || 500).json({success: false, error: error.message || 'Server error'})` */
  function Respond(error: ErrorLocal): Outcome {
    Sent(if TruthyStatus(StatusOf(error)) then StatusOf(error).value else DefaultStatus,
         ErrorBody(false, if TruthyMessage(MessageOf(error)) then MessageOf(error).value else Text(DefaultMessage)))
  }

  /**
   * Reference classification, written as a priority chain read from the last
   * rule to the first: validation failures, then a duplicate key, then an
   * invalid id, then the failure's own copied status and message.
   */
  function Classify(err: Failure): (out: Outcome)
    // total except for a validation failure without an `errors` object
    ensures out.TypeErrorThrown? <==> err.name == ValidationErrorName && err.errors.None?
    ensures out.Sent? ==> !out.body.success
    // exactly one status: a rule's, the copied one, or the default
    ensures out.Sent? ==>
      out.status in {404, 400, DefaultStatus} ||
      (TruthyStatus(err.copiedStatus) && out.status == err.copiedStatus.value)
    ensures out.Sent? ==> out.status != 0
    // the body's `error` is never a falsy value
    ensures out.Sent? ==> TruthyMessage(Some(out.body.error))
  {
    if err.name == ValidationErrorName then
      match err.errors
      case None => TypeErrorThrown
      case Some(es) => Sent(400, ErrorBody(false, Texts(ValidationMessages(es))))
    else if err.code == Some(DuplicateKeyCode) then
      Sent(400, ErrorBody(false, Text(DuplicateMessage)))
    else if err.name == CastErrorName then
      Sent(404, ErrorBody(false, Text(CastErrorPrefix + err.value)))
    else
      Respond(Copy(err.copiedStatus, err.copiedMessage))
  }

  /**
   * The middleware as written: a mutable local reassigned by three
   * independent `if`s, then one response. The log line is left out.
   */
  method ErrorHandler(err: Failure) returns (out: Outcome)
    ensures out == Classify(err)
  {
    var error := Copy(err.copiedStatus, err.copiedMessage);

    // invalid object id
    if err.name == CastErrorName {
      var message := CastErrorPrefix + err.value;
      error := Replaced(ErrorResponse(Text(message), 404));
    }

    // duplicate key
    if err.code == Some(DuplicateKeyCode) {
      error := Replaced(ErrorResponse(Text(DuplicateMessage), 400));
    }

    // schema validation
    if err.name == ValidationErrorName {
      if err.errors.None? {
        return TypeErrorThrown;
      }
      var message := ValidationMessages(err.errors.value);
      error := Replaced(ErrorResponse(Texts(message), 400));
    }

    out := Respond(error);
  }

  /** An invalid id, with no later rule matching, answers 404 naming the id. */
  lemma CastErrorRule(err: Failure)
    requires err.name == CastErrorName && err.code != Some(DuplicateKeyCode)
    ensures Classify(err) == Sent(404, ErrorBody(false, Text("Bootcamp not found with id of " + err.value)))
  {
  }

  /** A duplicate key that is not also a validation failure answers 400. */
  lemma DuplicateKeyRule(err: Failure)
    requires err.code == Some(DuplicateKeyCode) && err.name != ValidationErrorName
    ensures Classify(err) == Sent(400, ErrorBody(false, Text("Duplicates fields entered")))
  {
  }

  /** A validation failure answers 400 with its entries' messages, one per entry, in order. */
  lemma ValidationRule(err: Failure)
    requires err.name == ValidationErrorName && err.errors.Some?
    ensures var out := Classify(err);
      && out.Sent? && out.status == 400 && out.body.error.Texts?
      && |out.body.error.items| == |err.errors.value|
      && forall i :: 0 <= i < |err.errors.value| ==> out.body.error.items[i] == err.errors.value[i].message
  {
  }

  /** With no rule matching, the copied status and message are used, else 500 and 'Server error'. */
  lemma FallThroughRule(err: Failure)
    requires err.name != CastErrorName && err.name != ValidationErrorName
    requires err.code != Some(DuplicateKeyCode)
    ensures var out := Classify(err);
      && out.Sent?
      && out.status == (if err.copiedStatus.Some? && err.copiedStatus.value != 0 then err.copiedStatus.value else 500)
      && out.body.error == (if TruthyMessage(err.copiedMessage) then err.copiedMessage.value else Text("Server error"))
  {
  }

  /** A later rule overrides an earlier one: the validation rule hides a duplicate key. */
  lemma ValidationOverridesDuplicateKey(err: Failure)
    requires err.name == ValidationErrorName
    ensures Classify(err) == Classify(err.(code := None))
  {
  }

  /** A later rule overrides an earlier one: a duplicate key hides an invalid id. */
  lemma DuplicateKeyOverridesCastError(err: Failure)
    requires err.name == CastErrorName && err.code == Some(DuplicateKeyCode)
    ensures Classify(err) == Classify(err.(name := ""))
  {
  }

  /** Only the name, code, value, errors and the copied fields decide the outcome. */
  lemma OnlyClassifiedFieldsMatter(a: Failure, b: Failure)
    requires a.name == b.name && a.code == b.code && a.value == b.value && a.errors == b.errors
    requires a.copiedStatus == b.copiedStatus && a.copiedMessage == b.copiedMessage
    ensures Classify(a) == Classify(b)
  {
  }
}
