/**
 * The origin check composed with the global error middleware: when the
 * `origin` callback reports an error, the `cors` middleware passes it to
 * Express's `next`, which skips the routes and runs the error middleware.
 */
module Server {
  import opened JsValues
  import opened Cors
  import opened ErrorHandler

  /** What becomes of a request at the CORS stage. */
  datatype Outcome = Proceed | Respond(response: ErrorResponse)

  /**
   * The CORS stage of a request carrying `origin`, for a server started with
   * `FRONTEND_URL` = `frontendUrl` and `NODE_ENV` = `nodeEnv`; `stack` is the
   * trace of the error the callback creates.
   */
  function CorsStage(origin: Option<string>, frontendUrl: Option<string>, nodeEnv: Option<string>, stack: string): (out: Outcome)
    ensures out.Proceed? <==> !Truthy(origin) || Some(origin.value) in AllowedOrigins(frontendUrl) || EndsInVercelApp(origin.value)
    ensures out.Respond? ==>
              && out.response.status == InternalServerError
              && out.response.message == GenericMessage
              && out.response.error == Some(DenyMessage)
  {
    match OriginDecision(origin, AllowedOrigins(frontendUrl))
    case Allow => Proceed
    case Deny(msg) => Respond(ErrorResponseFor(JsError(Some(msg), Some(stack)), nodeEnv))
  }

  /**
   * A refused origin yields a 500 whose `error` is `Not allowed by CORS`,
   * with the stack as `details` in development and no `details` otherwise.
   */
  lemma DeniedOriginYields500(o: string, frontendUrl: Option<string>, nodeEnv: Option<string>, stack: string)
    requires o != "" && Some(o) !in AllowedOrigins(frontendUrl) && !EndsWith(o, VercelSuffix)
    ensures CorsStage(Some(o), frontendUrl, nodeEnv, stack)
         == Respond(ErrorResponse(500, "Something went wrong!", Some("Not allowed by CORS"),
                                  if nodeEnv == Some("development") then Some(stack) else None))
  {
    UnlistedOriginDenied(o, AllowedOrigins(frontendUrl));
  }

  /** The serialised body of a CORS refusal names the CORS error. */
  lemma DeniedOriginBody(origin: Option<string>, frontendUrl: Option<string>, nodeEnv: Option<string>, stack: string)
    requires CorsStage(origin, frontendUrl, nodeEnv, stack).Respond?
    ensures var body := JsonBody(CorsStage(origin, frontendUrl, nodeEnv, stack).response);
            body["message"] == "Something went wrong!" && "error" in body && body["error"] == "Not allowed by CORS"
            && ("details" in body <==> nodeEnv == Some("development"))
  {
  }

  /** The concrete refusal: `https://evil.com` gets the documented 500 body. */
  lemma EvilOriginScenario(frontendUrl: Option<string>, nodeEnv: Option<string>, stack: string)
    requires frontendUrl != Some("https://evil.com")
    ensures CorsStage(Some("https://evil.com"), frontendUrl, nodeEnv, stack).Respond?
    ensures CorsStage(Some("https://evil.com"), frontendUrl, nodeEnv, stack).response.error == Some("Not allowed by CORS")
  {
    EvilOriginDenied(frontendUrl);
  }
}
