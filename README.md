# Decision routing and token handling of the s2s-demo web server

This project models the request handling of the demo web server in
`web_server/web_server.go`. For every page request the server does four things:

- It opens an amp session, seeded either with the visitor's `AmpToken` cookie
  (`tokenHandler`) or with the `user_id` query parameter (`customHandler`).
- It builds a context from the user agent (`getContext`). When the
  `irrelevantContext` flag is on, it adds three decoy attributes picked at
  random (`chooseOne`).
- It gets the donation incentive to show. In adaptive mode it asks the amp
  agent (`DecideWithContext`). In A/B mode it only reports the context
  (`Observe`) and picks a message locally with `rng.Int() % 5`.
- On the token route it writes the token returned by the amp call back as the
  `AmpToken` cookie. Then it renders the page.

The model has four modules:

- `Wrappers` (`wrappers.dfy`): the `Option` datatype.
- `Amp` (`amp.dfy`): the types the server uses from the amp-go-thin client. It
  also holds the outcome of each session call, which the model takes as input:
  `Created`/`CreateFailed`, `Decided(response)`/`DecideFailed`, and
  `Observed(token)`/`ObserveFailed`.
- `ModuloPick` (`modulo_pick.dfy`): selecting an index with `rng.Int() % n`.
  It covers index bounds and exactly how often each index is hit over a range
  of draws.
- `WebServer` (`web_server.dfy`): the candidate registry, `chooseOne`,
  `getContext`, the template step and the two handlers.

The two handlers and `getContext` are methods that follow the Go code step by
step, with the same early returns. Each handler returns a `Response` record
with four parts:

- the reply: `Page(incentive)` (status 200), `HttpError(code, message)` or
  `Panic`;
- the cookie written to the response header map, if any. The browser receives
  it unless the handler panicked; `DeliveredCookie` gives the cookie actually
  delivered, and `StoreCookie` models the browser's cookie jar adding it to the
  next request;
- the amp calls made, in order;
- the values taken from the shared random generator, in order.

The handlers' inputs stand in for what they cannot see:

- the startup flags (`Config`);
- the request's cookies, query parameters and parsed user-agent fields;
- the values the generator would yield (`Draws`);
- the amp agent's answers (`Replies`);
- the template's result (`RenderOutcome`).

Two Go panics are modelled as `Panic`:

- a decision without a string under `"DonationIncentive"`, which makes the
  `.(string)` assertion fail;
- a `user_id` entry whose list of values is empty, which makes `userId[0]`
  fail. A query parsed by `req.URL.Query()` never has such an entry: `?user_id`
  and `?user_id=` both give `[""]`. So a valueless `user_id` opens the session
  with user id `""`, and this `Panic` branch only covers hand-built queries.

Go's `%` truncates and Dafny's is Euclidean. They agree here because
`rng.Int()` is never negative.

Points where the code's behaviour is easy to misread:

- In A/B mode `tokenHandler` does not absorb an `Observe` failure. It answers
  500 and sets no cookie (lines 109-113).
- `customHandler` throws away the `Observe` result and error (line 176). Its A/B
  decision carries no token, and it never sets a cookie.
- The decoy draws in `getContext` come from the same shared generator as the
  A/B pick. So adaptive mode does draw from it when `irrelevantContext` is on;
  the route itself never does.
- Neither handler answers `OPTIONS` requests specially. They only set the CORS
  headers.
- `rng.Int() % 5` is not exactly uniform over the range of `rng.Int()`. The
  first three messages are each picked once more than the last two out of 2^63
  draws. `DonationPickBias` states this.

## Model

| member | source | states |
|---|---|---|
| `ModuloPick.PickIndex` | web_server/web_server.go:117 | the index `draw % n` is always below `n`, so `Values[...]` never goes out of bounds; draws below `n` select themselves, so every index can be reached |
| `ModuloPick.HitsClosedForm` | web_server/web_server.go:219 | among the draws `[0, bound)`, index `i` is selected exactly `bound / n` times, plus one if `i < bound % n` |
| `ModuloPick.NearlyUniform` | web_server/web_server.go:178 | with uniform draws, any two indices are picked a number of times that differ by at most one, and equally often when `n` divides the range |
| `WebServer.ChooseOne` | web_server/web_server.go:218-220 | `chooseOne` returns one of its non-empty arguments, and draw `k < len` returns the `k`-th |
| `WebServer.DonationPick` | web_server/web_server.go:115-120 | the A/B pick is one of the `DonationIncentive` candidate values and always a string; draw `k < 5` picks the `k`-th message |
| `WebServer.DonationPickBias` | web_server/web_server.go:30-41 | over all 2^63 values of `rng.Int()`, messages 0-2 are each picked `2^63/5 + 1` times and messages 3-4 `2^63/5` times |
| `WebServer.GetContext` | web_server/web_server.go:192-210 | the context holds exactly `Mobile`, `Platform`, `OS`, `Browser` taken from the user agent (4 keys). With `irrelevantContext` it also holds `JunkX` ∈ x1..x4, `JunkY` ∈ y1..y2 and `JunkZ` ∈ z1..z8, drawn in that order (7 keys), and otherwise no decoy key. It consumes three draws with the flag on and none with it off |
| `WebServer.ExecuteTemplate` | web_server/web_server.go:136-142 | the page panics exactly when the decision lacks a string `DonationIncentive`. Otherwise it shows that string, or answers 500 with the template's error |
| `WebServer.TokenHandler` | web_server/web_server.go:81-143 | The session is opened with the `AmpToken` cookie's value unchanged, or `""` without the cookie. A failed `CreateNewSession` gives 500, no cookie and no further call or draw. After the session, adaptive mode makes exactly one `DecideWithContext` call, with the built context, `"UserContext"`, `"UserDecision"` and the registry, and draws nothing beyond the decoys. A/B mode makes exactly one `Observe` call, never decides, and draws once more for the pick only if `Observe` succeeded. A failed decide or observe gives 500 and no cookie. The cookie is set exactly when the route's amp call succeeded; it is named `AmpToken` and holds the token returned by `DecideWithContext` (adaptive) or `Observe` (A/B), never a made-up one. The reply is the template's reply on the decision, and in A/B mode it is never a panic |
| `WebServer.CustomHandler` | web_server/web_server.go:145-190 | Without `user_id` the reply is 400 "Didn't get user_id", before any amp call or draw. Otherwise the session is opened with the first `user_id` value and no token, and a failed session gives 500. Route exclusivity is the same as on the token route, and a failed decide gives 500. In A/B mode the `Observe` outcome is ignored, so the pick is always drawn and the page rendered. No cookie is ever set |
| `WebServer.ReturnVisit` | web_server/web_server.go:85-130 | two `tokenHandler` visits from one browser: the first opens its session with the request's `AmpToken` cookie (or `""`). If its session was created and, in A/B mode, `Observe` succeeded, the token `Observe` returned reaches the second request's `CreateNewSession` unchanged. In adaptive mode the same holds for the token `DecideWithContext` returned, when its decision holds a string incentive (otherwise the handler panics). If the first visit's session, decide or observe call failed, or its decision lacked a string incentive, no cookie is delivered and the second request forwards the same token as the first |

## Left out

- `main` (lines 44-79): flag parsing, the project-key check, creating the amp client, registering a route and `ListenAndServe`. This is startup I/O. The flags the handlers read are the `Config` input.
- The amp-go-thin library: `CreateNewSession`, `DecideWithContext` and `Observe` are not part of this model. Their results are inputs, and the timeout argument `0` is not recorded.
- The user-agent parser (lines 193-195): the parsed fields are the opaque `UserAgent` input.
- `setupHeader`, `printDebugInfo` and every `log` call: header and logging plumbing with no effect on the decision.
- The page the template produces: only its success or error is modelled. A template error after output has already been written would leave status 200. The model always reports 500.
- `http.Error` details: the trailing newline and content-type header it adds.
- `req.Cookie` returns the first of several cookies with the same name. The model keeps one value per cookie name.
- What net/http does after a `Panic` is only modelled by `DeliveredCookie`: the handlers' `Response` keeps the cookie written to the header map even on `Panic`, and `DeliveredCookie` drops it, as net/http does when it recovers and closes the connection. Nothing else about the recovery (logging, the connection) is modelled.
- The shared `rng` (line 28): its time-based seed and concurrent use are not modelled. Each value it yields is a `nat` input. `ModuloPick.IntRange` is the 64-bit range of `rng.Int()`; on 32-bit platforms the range is 2^31.
- `reporting_server/reporting_server.go` is not part of this model. It is an HTTP proxy doing JSON decoding, float parsing, wall-clock timestamps and an outbound POST, with no decision logic.
- `ReturnVisit` and `StoreCookie`: cookie values are treated as cookie-safe. `http.SetCookie` drops bytes outside 0x20-0x7E and `"`, `;` and `\`, and quotes values containing a space or comma. `req.Cookie` unquotes and validates them. A token containing such bytes would reach the next `CreateNewSession` altered, which the model does not capture.
