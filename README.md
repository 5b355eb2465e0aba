# CORS origin gatekeeper and error response of the Local-Store backend

This project models the decision logic of the Express server in `server.js`:

- the CORS allow-list, built once at start-up from four fixed development
  origins plus the optional `FRONTEND_URL` environment variable;
- the `origin` callback given to the `cors` middleware. It admits a falsy
  origin. It admits an origin strictly equal to an allow-list entry. It also
  admits an origin ending in `.vercel.app`. Every other origin is refused with
  the error `Not allowed by CORS`;
- the body of the 500 response built by the global error middleware. The
  `details` field carries the stack only when `NODE_ENV` is exactly
  `development`;
- the two composed: a refused origin ends in the error middleware's 500
  response, whose `error` is `Not allowed by CORS`.

Modules:

- `JsValues` (`js.dfy`) holds the JavaScript semantics the code relies on.
  `Option` stands for a string or `undefined`. `Truthy` models JavaScript
  falsiness, where `undefined` and `""` are falsy. `IndexOf` models
  `Array.prototype.indexOf` with strict equality. `EndsWith` models
  `String.prototype.endsWith`.
- `Cors` (`cors.dfy`) holds the allow-list, the `origin` callback as
  `OriginDecision` and the properties of the callback.
- `ErrorHandler` (`errors.dfy`) holds the error response and its JSON
  serialisation.
- `Server` (`server.dfy`) holds the CORS stage composed with the error
  handler.

Environment values (`FRONTEND_URL`, `NODE_ENV`) are parameters. `None`
stands for an unset variable. The stack trace that the runtime attaches to
`new Error(...)` is also a parameter.

`OriginDecision`'s contract is stated against two reference definitions
instead of the checks the callback runs. List membership `Some(o) in list`
stands for `indexOf(...) !== -1`. `HasSuffix`, meaning the origin is some
string followed by `.vercel.app`, stands for the `endsWith` test.

## Model

| member | source | states |
|---|---|---|
| `JsValues.IndexOf` | server.js:27 | the result is -1 exactly when the value is not in the list; otherwise it is the first index holding the value |
| `JsValues.Truthy` | server.js:24 | `undefined` and `""` are falsy, every other string is truthy |
| `JsValues.EndsWith` | server.js:32 | `endsWith(suffix)`, meaning the string's last characters, as many as the suffix has, equal the suffix, holds exactly when the string is some prefix followed by the suffix (`HasSuffix`) |
| `JsValues.MismatchNotEndsWith` | server.js:32 | one differing character among the last characters rules out `endsWith` |
| `Cors.AllowedOrigins` | server.js:12-18 | the list holds exactly the four fixed origins and the `FRONTEND_URL` value, and it holds `undefined` exactly when that variable is unset |
| `Cors.OriginDecision` | server.js:22-37 | refuses exactly when the origin is truthy, is not on the list and does not end in `.vercel.app`; a refusal always carries `Not allowed by CORS` |
| `Cors.NoOriginAllowed` | server.js:24 | an absent or empty origin is admitted whatever the list holds |
| `Cors.FixedOriginsAllowed` | server.js:12-16 | each of the four localhost / 127.0.0.1 origins on ports 5173 and 5174 is admitted, whatever `FRONTEND_URL` is |
| `Cors.FrontendUrlAllowed` | server.js:17 | a set `FRONTEND_URL` is admitted as an origin |
| `Cors.FrontendUrlAddsExactlyItself` | server.js:12-29 | an origin is admitted with `FRONTEND_URL` set exactly when it is admitted without it or is that value |
| `Cors.UndefinedSlotNeverMatches` | server.js:17-27 | with `FRONTEND_URL` unset, `indexOf` finds an origin exactly when it is one of the four fixed origins |
| `Cors.VercelDeploymentAllowed` | server.js:32-34 | every origin of the form `<host>.vercel.app` is admitted whatever the list holds |
| `Cors.UnlistedOriginDenied` | server.js:24-36 | a non-empty origin that is neither listed nor ends with `.vercel.app` gets `Deny("Not allowed by CORS")` |
| `Cors.HttpsNotFixed` | server.js:12-16 | no `https` origin is one of the four fixed origins, which all use `http` |
| `Cors.LookalikeDenied` | server.js:27-36 | an unlisted `https` origin whose last 11 characters differ from `.vercel.app` somewhere is refused with `Not allowed by CORS` |
| `Cors.LookalikeOriginsDenied` | server.js:32-36 | `https://notvercel.app`, `https://fakevercel.app`, `https://vercel.app` and `https://X.VERCEL.APP` are refused unless `FRONTEND_URL` names them; the suffix test needs the dot and is case-sensitive |
| `Cors.MoreEntriesNeverDeny` | server.js:27 | adding entries to the allow-list never turns an admitted origin into a refused one |
| `Cors.OnlyMembershipMatters` | server.js:27 | two lists with the same members give the same decision, so the order and repetition of entries do not matter |
| `Cors.AdmittedScenarios` | server.js:22-34 | `http://localhost:5173`, `https://myapp.vercel.app` and a request with no origin are admitted |
| `Cors.EvilOriginDenied` | server.js:22-36 | `https://evil.com` is refused with `Not allowed by CORS` unless it is `FRONTEND_URL` |
| `ErrorHandler.ErrorResponseFor` | server.js:66-70 | status 500, message `Something went wrong!`, `error` equal to the error's message, `details` equal to the stack under `development` and absent under any other `NODE_ENV` |
| `ErrorHandler.JsonBody` | server.js:66-70 | the serialised body always has `message`; it has `error` and `details` exactly when those values are defined, each holding its value |
| `ErrorHandler.DetailsIffDevelopment` | server.js:69 | for an error with a stack, `details` equals that stack exactly when `NODE_ENV` is `development` |
| `ErrorHandler.DetailsSerialisedOnlyInDevelopment` | server.js:66-70 | the JSON body has a `details` key exactly in development when the error has a stack, and the key then holds the stack |
| `ErrorHandler.BodyAlwaysReportsError` | server.js:66-68 | in every environment the body carries the generic message and the error's message |
| `Server.CorsStage` | server.js:22-71 | a request proceeds exactly when its origin is falsy, listed or ends in `.vercel.app`; otherwise it gets a 500 response with `error` `Not allowed by CORS` |
| `Server.DeniedOriginYields500` | server.js:24-70 | a refused origin yields exactly the response `500 { "Something went wrong!", "Not allowed by CORS", details }`; `details` is the stack in development and absent otherwise |
| `Server.DeniedOriginBody` | server.js:36-70 | the JSON body of a CORS refusal has `error: "Not allowed by CORS"`, and it has `details` exactly in development |
| `Server.EvilOriginScenario` | server.js:22-70 | a request from `https://evil.com` gets the 500 response whose `error` is `Not allowed by CORS` |

## Left out

- Express app construction, the order in which middleware is registered, `express.json()`, and `app.listen` with its `NODE_ENV !== 'production'` gating (server.js:9, 44, 73-85): these are framework plumbing. The default port 5000 is not modelled.
- The `cors` library's own behaviour: it echoes the admitted origin, sets the credentials header and answers preflight requests. Being a foreign library, it appears only as the constants `Cors.Credentials`, `Cors.Methods` and `Cors.AllowedHeaders`. `Server.CorsStage` assumes that `cors` passes the callback's error to `next`, and that Express then runs the error middleware.
- `authRoutes` and `pool` (server.js:4-5): routes/authRoutes.js and config/db.js are not part of this model.
- `dotenv.config()` and reading `process.env`: environment values are parameters.
- The health-check route `GET /` (server.js:47-53): its timestamp is read from the clock.
- `console.error` and `console.log` logging, including the `err.query` field, which is only logged (server.js:60-64, 79-80).
- Strings are Dafny character sequences. JavaScript compares UTF-16 code units. The two agree on every comparison made here.
- The error middleware can receive any thrown value. The model limits this to a value whose `message` and `stack` are each a string or `undefined`.
- The stack is attached only under `NODE_ENV === "development"`. It is not attached in every non-production environment: under `test`, `staging` or an unset `NODE_ENV` the body has no `details`. `ErrorHandler.ErrorResponseFor` states exactly this.
