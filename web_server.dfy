/**
 * The request handlers of the demo web server: per request they open an
 * amp session, build a context from the user agent, obtain a donation
 * incentive either from the amp agent (adaptive mode) or from a local
 * random pick (A/B mode), carry the amp token back to the browser in the
 * `AmpToken` cookie (token route only) and render the page.
 *
 * External steps are inputs: the amp agent's answers (`Amp.Replies`), the
 * values the shared random generator yields (`Draws`), the fields parsed
 * from the user-agent string (`UserAgent`) and the template's result
 * (`RenderOutcome`). Each handler returns a `Response` recording the reply,
 * the cookie it set and the trace of external calls it made, in order.
 */
module WebServer {
  import opened Wrappers
  import opened Amp
  import ModuloPick

  const AmpTokenCookieName := "AmpToken"
  const UserIdParam := "user_id"
  const UserContextKey := "UserContext"
  const UserDecisionKey := "UserDecision"
  const DonationIncentiveKey := "DonationIncentive"

  const StatusBadRequest: nat := 400
  const StatusInternalServerError: nat := 500

  /** The process-wide candidate registry: one slot with five messages. */
  const Candidates: seq<CandidateField> := [
    CandidateField(DonationIncentiveKey, [
      StringValue("stop inhumane hunting of this local treasure"),
      StringValue("bugs have invaded our community and octopuses feed on them, maintaining a gentle balance"),
      StringValue("promote tolerance in our society, one animal at a time"),
      StringValue("lower your taxes while contributing to a cause in our community"),
      StringValue("tree octopuses are an endangered species, preserve their habitat for the next generation")
    ])
  ]

  const JunkXOptions: seq<string> := ["x1", "x2", "x3", "x4"]
  const JunkYOptions: seq<string> := ["y1", "y2"]
  const JunkZOptions: seq<string> := ["z1", "z2", "z3", "z4", "z5", "z6", "z7", "z8"]

  /** Startup flags, fixed for the lifetime of the process. */
  datatype Config = Config(abTestMode: bool, irrelevantContext: bool)

  /** The fields the user-agent parser extracts (opaque here). */
  datatype UserAgent = UserAgent(mobile: bool, platform: string, os: string, browser: string)

  /** What a handler reads from the request: cookies by name, query parameters, user agent. */
  datatype Request = Request(cookies: map<string, string>, query: map<string, seq<string>>, userAgent: UserAgent)

  /**
   * The values `rng.Int()` yields to this request: three for the decoy
   * context values (drawn in the order X, Y, Z) and one for the A/B pick.
   * A value is consumed only when the handler reaches the draw.
   */
  datatype Draws = Draws(junkX: nat, junkY: nat, junkZ: nat, pick: nat)

  datatype RenderOutcome = RenderOk | RenderFailed(err: string)

  datatype Cookie = Cookie(name: string, value: string)

  /** One call made on the amp client or session while handling a request. */
  datatype Call =
    | CreateSession(opts: SessionOpts)
    | DecideWithContext(contextKey: string, context: Context, decisionKey: string, candidates: seq<CandidateField>)
    | Observe(contextKey: string, context: Context)

  /** How a request ends: a rendered page (status 200), an `http.Error`, or a panic. */
  datatype Reply =
    | Page(donationIncentive: string)
    | HttpError(code: nat, message: string)
    | Panic

  /**
   * The reply, the cookie set on the response header, the amp calls made
   * (in order) and the values taken from the shared random generator (in order).
   */
  datatype Response = Response(reply: Reply, cookie: Option<Cookie>, calls: seq<Call>, drawn: seq<nat>)

  /** `chooseOne`: one of the (non-empty) options, selected by a draw. */
  function ChooseOne(options: seq<string>, draw: nat): (r: string)
    requires |options| > 0
    ensures r in options
    ensures draw < |options| ==> r == options[draw]
  {
    options[ModuloPick.PickIndex(draw, |options|)]
  }

  /** The A/B pick `candidates[0].Values[rng.Int() % len(candidates[0].Values)]`. */
  function DonationPick(draw: nat): (v: Value)
    ensures v in Candidates[0].values
    ensures v.StringValue?
    ensures draw < |Candidates[0].values| ==> v == Candidates[0].values[draw]
  {
    Candidates[0].values[ModuloPick.PickIndex(draw, |Candidates[0].values|)]
  }

  /**
   * Over the whole range of `rng.Int()`, the five messages are not picked
   * equally often: the first three are each picked once more than the last two.
   */
  lemma DonationPickBias(i: nat)
    requires i < |Candidates[0].values|
    ensures |Candidates[0].values| == 5
    ensures ModuloPick.Hits(|Candidates[0].values|, i, ModuloPick.IntRange)
         == ModuloPick.IntRange / 5 + (if i < 3 then 1 else 0)
  {
    ModuloPick.HitsClosedForm(5, i, ModuloPick.IntRange);
  }

  /** The context keys, with and without the decoy attributes. */
  function ContextKeys(irrelevantContext: bool): set<string>
  {
    {"Mobile", "Platform", "OS", "Browser"}
    + (if irrelevantContext then {"JunkX", "JunkY", "JunkZ"} else {})
  }

  /** `ctx` is the context `getContext` builds for `ua` under the given flag and draws. */
  predicate IsContextFor(ctx: Context, ua: UserAgent, irrelevantContext: bool, draws: Draws)
  {
    ctx.Keys == ContextKeys(irrelevantContext)
    && ctx["Mobile"] == BoolValue(ua.mobile)
    && ctx["Platform"] == StringValue(ua.platform)
    && ctx["OS"] == StringValue(ua.os)
    && ctx["Browser"] == StringValue(ua.browser)
    && (irrelevantContext ==>
          ctx["JunkX"] == StringValue(ChooseOne(JunkXOptions, draws.junkX))
          && ctx["JunkY"] == StringValue(ChooseOne(JunkYOptions, draws.junkY))
          && ctx["JunkZ"] == StringValue(ChooseOne(JunkZOptions, draws.junkZ)))
  }

  /** The values `getContext` takes from the shared generator. */
  function JunkDraws(irrelevantContext: bool, draws: Draws): seq<nat>
  {
    if irrelevantContext then [draws.junkX, draws.junkY, draws.junkZ] else []
  }

  /**
   * `getContext`: the four user-agent attributes, plus the three decoy
   * attributes when `irrelevantContext` is on. Also returns the values it
   * took from the shared generator.
   */
  method GetContext(ua: UserAgent, irrelevantContext: bool, draws: Draws) returns (ctx: Context, drawn: seq<nat>)
    ensures IsContextFor(ctx, ua, irrelevantContext, draws)
    ensures |ctx| == if irrelevantContext then 7 else 4
    ensures irrelevantContext ==>
              ctx["JunkX"].s in JunkXOptions && ctx["JunkY"].s in JunkYOptions && ctx["JunkZ"].s in JunkZOptions
    ensures drawn == JunkDraws(irrelevantContext, draws)
  {
    ctx := map[
      "Mobile" := BoolValue(ua.mobile),
      "Platform" := StringValue(ua.platform),
      "OS" := StringValue(ua.os),
      "Browser" := StringValue(ua.browser)
    ];
    drawn := [];
    if irrelevantContext {
      ctx := ctx["JunkX" := StringValue(ChooseOne(JunkXOptions, draws.junkX))];
      ctx := ctx["JunkY" := StringValue(ChooseOne(JunkYOptions, draws.junkY))];
      ctx := ctx["JunkZ" := StringValue(ChooseOne(JunkZOptions, draws.junkZ))];
      drawn := [draws.junkX, draws.junkY, draws.junkZ];
    }
  }

  /**
   * Executing the template with `decision["DonationIncentive"].(string)`:
   * the type assertion panics unless the decision holds a string under that
   * key; otherwise the page shows that string, or the template error is
   * reported with status 500.
   */
  function ExecuteTemplate(decision: map<string, Value>, render: RenderOutcome): (r: Reply)
    ensures r.Panic? <==> !(DonationIncentiveKey in decision && decision[DonationIncentiveKey].StringValue?)
    ensures r.Page? <==> render.RenderOk? && !r.Panic?
    ensures r.Page? ==> decision[DonationIncentiveKey] == StringValue(r.donationIncentive)
    ensures r.HttpError? ==> r == HttpError(StatusInternalServerError, render.err)
  {
    if DonationIncentiveKey in decision && decision[DonationIncentiveKey].StringValue? then
      match render
      case RenderOk => Page(decision[DonationIncentiveKey].s)
      case RenderFailed(err) => HttpError(StatusInternalServerError, err)
    else Panic
  }

  /** The token sent to `CreateNewSession`: the `AmpToken` cookie's value, or `""` without one. */
  function PriorToken(req: Request): string
  {
    if AmpTokenCookieName in req.cookies then req.cookies[AmpTokenCookieName] else ""
  }

  /** The context of every decide or observe call in `calls` is the one `getContext` builds. */
  predicate SendsContextFor(calls: seq<Call>, ua: UserAgent, irrelevantContext: bool, draws: Draws)
  {
    forall k | 0 <= k < |calls| ::
      (calls[k].DecideWithContext? ==>
         calls[k] == DecideWithContext(UserContextKey, calls[k].context, UserDecisionKey, Candidates)
         && IsContextFor(calls[k].context, ua, irrelevantContext, draws))
      && (calls[k].Observe? ==>
         calls[k].contextKey == UserContextKey && IsContextFor(calls[k].context, ua, irrelevantContext, draws))
  }

  /** A session call followed by one call on a built context sends only that context. */
  lemma SessionThenContext(calls: seq<Call>, call: Call, ua: UserAgent, irrelevantContext: bool, draws: Draws)
    requires |calls| == 1 && calls[0].CreateSession?
    requires call.DecideWithContext? || call.Observe?
    requires call == DecideWithContext(UserContextKey, call.context, UserDecisionKey, Candidates)
             || call == Observe(UserContextKey, call.context)
    requires IsContextFor(call.context, ua, irrelevantContext, draws)
    ensures SendsContextFor(calls + [call], ua, irrelevantContext, draws)
  {
  }

  /**
   * `tokenHandler`: the entry route that keeps the amp token in the
   * `AmpToken` cookie.
   */
  method TokenHandler(cfg: Config, req: Request, draws: Draws, amp: Replies, render: RenderOutcome)
    returns (resp: Response)
    // the session is opened with the cookie's token, or "" without a cookie
    ensures |resp.calls| == if amp.create.Created? then 2 else 1
    ensures resp.calls[0] == CreateSession(SessionOpts(PriorToken(req), ""))
    // route exclusivity: after the session, adaptive mode only decides and
    // A/B mode only observes, with one extra draw for the pick
    ensures |resp.calls| == 2 ==>
              if cfg.abTestMode then resp.calls[1].Observe? else resp.calls[1].DecideWithContext?
    ensures SendsContextFor(resp.calls, req.userAgent, cfg.irrelevantContext, draws)
    ensures resp.drawn == if amp.create.CreateFailed? then []
                          else JunkDraws(cfg.irrelevantContext, draws)
                               + (if cfg.abTestMode && amp.observe.Observed? then [draws.pick] else [])
    // every failing amp call ends the request with 500 and no cookie
    ensures amp.create.CreateFailed? ==>
              resp.reply == HttpError(StatusInternalServerError, amp.create.err) && resp.cookie == None
    ensures amp.create.Created? && !cfg.abTestMode && amp.decide.DecideFailed? ==>
              resp.reply == HttpError(StatusInternalServerError, amp.decide.err) && resp.cookie == None
    ensures amp.create.Created? && cfg.abTestMode && amp.observe.ObserveFailed? ==>
              resp.reply == HttpError(StatusInternalServerError, amp.observe.err) && resp.cookie == None
    // a cookie is only ever set to the token the amp agent returned, never to a made-up one
    ensures resp.cookie.Some? ==>
              resp.cookie.value.name == AmpTokenCookieName
              && (if cfg.abTestMode then amp.observe == Observed(resp.cookie.value.value)
                  else amp.decide.Decided? && amp.decide.response.ampToken == resp.cookie.value.value)
    // otherwise the cookie carries the token the amp call returned, and the page shows the decision
    ensures amp.create.Created? && !cfg.abTestMode && amp.decide.Decided? ==>
              resp.cookie == Some(Cookie(AmpTokenCookieName, amp.decide.response.ampToken))
              && resp.reply == ExecuteTemplate(amp.decide.response.decision, render)
    ensures amp.create.Created? && cfg.abTestMode && amp.observe.Observed? ==>
              resp.cookie == Some(Cookie(AmpTokenCookieName, amp.observe.ampToken))
              && resp.reply == (if render.RenderOk? then Page(DonationPick(draws.pick).s)
                                else HttpError(StatusInternalServerError, render.err))
  {
    var ampToken := "";
    if AmpTokenCookieName in req.cookies {
      ampToken := req.cookies[AmpTokenCookieName];
    }

    var calls := [CreateSession(SessionOpts(ampToken, ""))];
    if amp.create.CreateFailed? {
      return Response(HttpError(StatusInternalServerError, amp.create.err), None, calls, []);
    }

    var decision: DecideResponse;
    var userContext, drawn := GetContext(req.userAgent, cfg.irrelevantContext, draws);
    if !cfg.abTestMode {
      SessionThenContext(calls, DecideWithContext(UserContextKey, userContext, UserDecisionKey, Candidates),
                         req.userAgent, cfg.irrelevantContext, draws);
      calls := calls + [DecideWithContext(UserContextKey, userContext, UserDecisionKey, Candidates)];
      if amp.decide.DecideFailed? {
        return Response(HttpError(StatusInternalServerError, amp.decide.err), None, calls, drawn);
      }
      decision := amp.decide.response;
    } else {
      SessionThenContext(calls, Observe(UserContextKey, userContext),
                         req.userAgent, cfg.irrelevantContext, draws);
      calls := calls + [Observe(UserContextKey, userContext)];
      if amp.observe.ObserveFailed? {
        return Response(HttpError(StatusInternalServerError, amp.observe.err), None, calls, drawn);
      }
      ampToken := amp.observe.ampToken;
      drawn := drawn + [draws.pick];
      decision := DecideResponse(map[DonationIncentiveKey := DonationPick(draws.pick)], ampToken);
    }

    ampToken := decision.ampToken;
    var cookie := Cookie(AmpTokenCookieName, ampToken);
    resp := Response(ExecuteTemplate(decision.decision, render), Some(cookie), calls, drawn);
  }

  /** The `user_id` query parameter is present with at least one value. */
  predicate HasUserId(req: Request)
  {
    UserIdParam in req.query && |req.query[UserIdParam]| > 0
  }

  /**
   * `customHandler`: the entry route that identifies the visitor by the
   * `user_id` query parameter and never reads or writes a cookie.
   */
  method CustomHandler(cfg: Config, req: Request, draws: Draws, amp: Replies, render: RenderOutcome)
    returns (resp: Response)
    ensures resp.cookie == None
    // without `user_id` the request is refused before any amp call. A parsed
    // query always holds at least one value per key (`?user_id` gives [""]),
    // so the `userId[0]` panic for an empty list is only reachable from a
    // hand-built query
    ensures UserIdParam !in req.query ==>
              resp == Response(HttpError(StatusBadRequest, "Didn't get user_id"), None, [], [])
    ensures UserIdParam in req.query && req.query[UserIdParam] == [] ==> resp == Response(Panic, None, [], [])
    // the session is opened with the first `user_id` value and no token
    ensures |resp.calls| == if !HasUserId(req) then 0 else if amp.create.Created? then 2 else 1
    ensures HasUserId(req) ==> resp.calls[0] == CreateSession(SessionOpts("", req.query[UserIdParam][0]))
    // route exclusivity, as in `tokenHandler`, except that the pick never depends on `Observe`
    ensures |resp.calls| == 2 ==>
              if cfg.abTestMode then resp.calls[1].Observe? else resp.calls[1].DecideWithContext?
    ensures SendsContextFor(resp.calls, req.userAgent, cfg.irrelevantContext, draws)
    ensures resp.drawn == if !HasUserId(req) || amp.create.CreateFailed? then []
                          else JunkDraws(cfg.irrelevantContext, draws) + (if cfg.abTestMode then [draws.pick] else [])
    // session and decide failures end the request with 500
    ensures HasUserId(req) && amp.create.CreateFailed? ==>
              resp.reply == HttpError(StatusInternalServerError, amp.create.err)
    ensures HasUserId(req) && amp.create.Created? && !cfg.abTestMode && amp.decide.DecideFailed? ==>
              resp.reply == HttpError(StatusInternalServerError, amp.decide.err)
    ensures HasUserId(req) && amp.create.Created? && !cfg.abTestMode && amp.decide.Decided? ==>
              resp.reply == ExecuteTemplate(amp.decide.response.decision, render)
    // in A/B mode the outcome of `Observe` is ignored
    ensures HasUserId(req) && amp.create.Created? && cfg.abTestMode ==>
              resp.reply == (if render.RenderOk? then Page(DonationPick(draws.pick).s)
                             else HttpError(StatusInternalServerError, render.err))
  {
    var opts: SessionOpts;
    if UserIdParam in req.query {
      var userId := req.query[UserIdParam];
      if |userId| == 0 {
        return Response(Panic, None, [], []);
      }
      opts := SessionOpts("", userId[0]);
    } else {
      return Response(HttpError(StatusBadRequest, "Didn't get user_id"), None, [], []);
    }

    var calls := [CreateSession(opts)];
    if amp.create.CreateFailed? {
      return Response(HttpError(StatusInternalServerError, amp.create.err), None, calls, []);
    }

    var decision: map<string, Value>;
    var userContext, drawn := GetContext(req.userAgent, cfg.irrelevantContext, draws);
    if !cfg.abTestMode {
      SessionThenContext(calls, DecideWithContext(UserContextKey, userContext, UserDecisionKey, Candidates),
                         req.userAgent, cfg.irrelevantContext, draws);
      calls := calls + [DecideWithContext(UserContextKey, userContext, UserDecisionKey, Candidates)];
      if amp.decide.DecideFailed? {
        return Response(HttpError(StatusInternalServerError, amp.decide.err), None, calls, drawn);
      }
      decision := amp.decide.response.decision;
    } else {
      SessionThenContext(calls, Observe(UserContextKey, userContext),
                         req.userAgent, cfg.irrelevantContext, draws);
      calls := calls + [Observe(UserContextKey, userContext)];
      drawn := drawn + [draws.pick];
      decision := map[DonationIncentiveKey := DonationPick(draws.pick)];
    }

    resp := Response(ExecuteTemplate(decision, render), None, calls, drawn);
  }

  /**
   * The cookie the browser actually receives: net/http drops the response
   * of a handler that panicked, header map included.
   */
  function DeliveredCookie(resp: Response): (c: Option<Cookie>)
    ensures c.Some? <==> resp.cookie.Some? && !resp.reply.Panic?
    ensures c.Some? ==> c == resp.cookie
  {
    if resp.reply.Panic? then None else resp.cookie
  }

  /** The browser stores a cookie set on a response and sends it with its next request. */
  function StoreCookie(req: Request, cookie: Option<Cookie>): (next: Request)
    ensures cookie.Some? ==> cookie.value.name in next.cookies && next.cookies[cookie.value.name] == cookie.value.value
    ensures cookie.None? ==> next == req
    ensures next.userAgent == req.userAgent && next.query == req.query
  {
    match cookie
    case None => req
    case Some(c) => req.(cookies := req.cookies[c.name := c.value])
  }

  /**
   * Two visits from one browser on the token route: the first opens its
   * session with the request's token, and the token the amp agent returned
   * on the first visit is forwarded unchanged to the session of the second.
   * When the first visit's amp calls failed, or its decision had no string
   * incentive so the handler panicked, no cookie is delivered and the second
   * forwards the same token as the first.
   */
  method ReturnVisit(cfg: Config, req: Request,
                     draws1: Draws, amp1: Replies, render1: RenderOutcome,
                     draws2: Draws, amp2: Replies, render2: RenderOutcome)
    returns (first: Response, second: Response)
    ensures |first.calls| > 0 && |second.calls| > 0
    ensures first.calls[0] == CreateSession(SessionOpts(PriorToken(req), ""))
    ensures amp1.create.Created? && cfg.abTestMode && amp1.observe.Observed? ==>
              second.calls[0] == CreateSession(SessionOpts(amp1.observe.ampToken, ""))
    ensures amp1.create.Created? && !cfg.abTestMode && amp1.decide.Decided? &&
            DonationIncentiveKey in amp1.decide.response.decision &&
            amp1.decide.response.decision[DonationIncentiveKey].StringValue? ==>
              second.calls[0] == CreateSession(SessionOpts(amp1.decide.response.ampToken, ""))
    ensures amp1.create.CreateFailed? ||
            (cfg.abTestMode && amp1.observe.ObserveFailed?) ||
            (!cfg.abTestMode && amp1.decide.DecideFailed?) ||
            (!cfg.abTestMode && amp1.decide.Decided? &&
             !(DonationIncentiveKey in amp1.decide.response.decision &&
               amp1.decide.response.decision[DonationIncentiveKey].StringValue?)) ==>
              second.calls[0] == first.calls[0]
    ensures first.cookie.Some? && !first.reply.Panic? ==>
              second.calls[0] == CreateSession(SessionOpts(first.cookie.value.value, ""))
    ensures first.cookie.None? || first.reply.Panic? ==> second.calls[0] == first.calls[0]
  {
    first := TokenHandler(cfg, req, draws1, amp1, render1);
    second := TokenHandler(cfg, StoreCookie(req, DeliveredCookie(first)), draws2, amp2, render2);
  }
}
