/**
 * The body of the response sent by the server's global error middleware,
 * and the JSON object that body serialises to.
 */
module ErrorHandler {
  import opened JsValues

  const InternalServerError: int := 500
  const GenericMessage: string := "Something went wrong!"
  const Development: string := "development"

  /** The two properties of a thrown value that the handler reads; `None` is `undefined`. */
  datatype JsError = JsError(message: Option<string>, stack: Option<string>)

  /** `res.status(500).json({ message, error, details })`; `None` is an `undefined` property. */
  datatype ErrorResponse = ErrorResponse(status: int, message: string, error: Option<string>, details: Option<string>)

  /**
   * The response for error `err` under `NODE_ENV` = `nodeEnv`: always 500
   * with the generic message and the error's own message; the stack is
   * attached only when `NODE_ENV` is exactly `development`.
   */
  function ErrorResponseFor(err: JsError, nodeEnv: Option<string>): (r: ErrorResponse)
    ensures r.status == InternalServerError
    ensures r.message == GenericMessage
    ensures r.error == err.message
    ensures nodeEnv == Some(Development) ==> r.details == err.stack
    ensures nodeEnv != Some(Development) ==> r.details == None
  {
    ErrorResponse(InternalServerError, GenericMessage, err.message,
                  if nodeEnv == Some(Development) then err.stack else None)
  }

  /** `JSON.stringify` of the body: a property whose value is `undefined` is dropped. */
  function JsonBody(r: ErrorResponse): (body: map<string, string>)
    ensures "message" in body && body["message"] == r.message
    ensures "error" in body <==> r.error.Some?
    ensures "error" in body ==> body["error"] == r.error.value
    ensures "details" in body <==> r.details.Some?
    ensures "details" in body ==> body["details"] == r.details.value
    ensures body.Keys <= {"message", "error", "details"}
  {
    var withMessage := map["message" := r.message];
    var withError := if r.error.Some? then withMessage["error" := r.error.value] else withMessage;
    if r.details.Some? then withError["details" := r.details.value] else withError
  }

  /**
   * For an error that has a stack, `details` equals that stack exactly when
   * `NODE_ENV` is `development`.
   */
  lemma DetailsIffDevelopment(err: JsError, nodeEnv: Option<string>)
    requires err.stack.Some?
    ensures ErrorResponseFor(err, nodeEnv).details == err.stack <==> nodeEnv == Some(Development)
  {
  }

  /**
   * The serialised body carries a `details` property only in development,
   * and then it is the error's stack.
   */
  lemma DetailsSerialisedOnlyInDevelopment(err: JsError, nodeEnv: Option<string>)
    ensures var body := JsonBody(ErrorResponseFor(err, nodeEnv));
            ("details" in body <==> nodeEnv == Some(Development) && err.stack.Some?)
            && ("details" in body ==> body["details"] == err.stack.value)
  {
  }

  /** Whatever the environment, the body names the generic message and the error's message. */
  lemma BodyAlwaysReportsError(msg: string, stack: Option<string>, nodeEnv: Option<string>)
    ensures var body := JsonBody(ErrorResponseFor(JsError(Some(msg), stack), nodeEnv));
            body["message"] == GenericMessage && "error" in body && body["error"] == msg
  {
  }
}
