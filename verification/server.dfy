/** The HTTP layer of the chat back end (backend/main.py): which client
    address a request is charged to, the rate-limit middleware in front of
    every route, the health report, the rate-limit report, and the chat
    handler that ties the store and the Gemini client together. The two
    services are the globals `db` and `ai`, either of which may be missing;
    the clock, the fresh session id (`uuid4`) and the Gemini service are
    parameters. */
module Server {
  import opened Wrappers
  import opened Text
  import opened ChatStore
  import Gemini

  /** The parts of an HTTP request the back end looks at: path, method, the
      X-Forwarded-For and X-Real-IP headers, and the peer address. */
  datatype Request = Request(path: string, httpMethod: string, forwardedFor: Option<string>,
                             realIp: Option<string>, clientHost: Option<string>)

  /** get_client_ip: the first hop of a non-empty X-Forwarded-For, else a
      non-empty X-Real-IP, else the peer address, else "unknown". */
  function ClientIp(req: Request): (ip: string)
    ensures Truthy(req.forwardedFor) ==>
      ',' !in ip && (ip == [] || (!IsPySpace(ip[0]) && !IsPySpace(ip[|ip| - 1])))
      && |ip| <= |req.forwardedFor.value|
    ensures !Truthy(req.forwardedFor) && Truthy(req.realIp) ==> ip == req.realIp.value
    ensures !Truthy(req.forwardedFor) && !Truthy(req.realIp) ==>
      ip == if req.clientHost.Some? then req.clientHost.value else "unknown"
  {
    if Truthy(req.forwardedFor) then Trim(FirstField(req.forwardedFor.value, ','), IsPySpace)
    else if Truthy(req.realIp) then req.realIp.value
    else if req.clientHost.Some? then req.clientHost.value
    else "unknown"
  }

  /** A proxy chain "  client , proxy1, proxy2" is charged to its first hop,
      whatever whitespace surrounds it. */
  lemma ForwardedFirstHop(req: Request, pre: string, addr: string, post: string, rest: string)
    requires AllOf(pre, IsPySpace) && AllOf(post, IsPySpace)
    requires ',' !in addr && (addr == [] || (!IsPySpace(addr[0]) && !IsPySpace(addr[|addr| - 1])))
    requires rest == [] || rest[0] == ','
    requires req.forwardedFor == Some(pre + addr + post + rest) && req.forwardedFor.value != ""
    ensures ClientIp(req) == addr
  {
    var field := pre + addr + post;
    assert ',' !in field by {
      forall k | 0 <= k < |field| ensures field[k] != ',' {
        if k < |pre| { assert field[k] == pre[k]; }
        else if k < |pre| + |addr| { assert field[k] == addr[k - |pre|]; }
        else { assert field[k] == post[k - |pre| - |addr|]; }
      }
    }
    FirstFieldStops(field, rest, ',');
    TrimPadded(pre, addr, post, IsPySpace);
  }

  // ---------------------------------------------------------------------------
  // Middleware

  /** The routes the middleware never charges. */
  const EXEMPT_PATHS: seq<string> := ["/", "/health", "/rate-limit-info"]

  const RATE_LIMIT_MESSAGE: string :=
    "You have exceeded the limit of 3 requests per hour. The collective values thoughtful discourse over spam."

  predicate IsChatPost(req: Request) {
    req.path == "/chat" && req.httpMethod == "POST"
  }

  /** What the middleware records on request.state for the chat handler. */
  datatype RequestState = RequestState(remainingRequests: int, ipAddress: string)

  /** The middleware's decision: hand the request on to its route (with what
      it recorded on request.state, if anything), or answer it with a JSON
      error body of its own. */
  datatype Gate =
    | Forward(state: Option<RequestState>)
    | Reject(status: int, error: string, message: Option<string>, rateLimitInfo: Option<RateInfo>)

  /** rate_limit_middleware. */
  method RateLimitMiddleware(db: Database?, req: Request, now: int) returns (gate: Gate)
    modifies db
    // The exempt routes pass without a check, whether or not the database is up.
    ensures req.path in EXEMPT_PATHS ==> gate == Forward(None)
    // Any other route is refused with 503 while the database is missing.
    ensures req.path !in EXEMPT_PATHS && db == null ==>
      gate == Reject(503, "Database service unavailable", None, None)
    // Only POST /chat is charged; everything else passes untouched.
    ensures db != null && (req.path in EXEMPT_PATHS || !IsChatPost(req)) ==> unchanged(db)
    ensures req.path !in EXEMPT_PATHS && db != null && !IsChatPost(req) ==> gate == Forward(None)
    ensures db != null && IsChatPost(req) ==>
      var ip := ClientIp(req);
      var a := Admit(Lookup(old(db.rateLimits), ip), now, DEFAULT_LIMIT);
      db.rateLimits == old(db.rateLimits)[ip := a.row]
      && db.sessions == old(db.sessions) && db.chatHistory == old(db.chatHistory)
      && (a.allowed ==> gate == Forward(Some(RequestState(a.remaining, ip))))
      && (!a.allowed ==> gate == Reject(429, "Rate limit exceeded", Some(RATE_LIMIT_MESSAGE),
                                         Some(InfoOf(Lookup(db.rateLimits, ip), now))))
  {
    if req.path in EXEMPT_PATHS {
      return Forward(None);
    }
    if db == null {
      return Reject(503, "Database service unavailable", None, None);
    }
    if IsChatPost(req) {
      var ip := ClientIp(req);
      var allowed, remaining := db.CheckRateLimit(ip, now, DEFAULT_LIMIT);
      if !allowed {
        var info := db.GetRateLimitInfo(ip, now);
        return Reject(429, "Rate limit exceeded", Some(RATE_LIMIT_MESSAGE), Some(info));
      }
      return Forward(Some(RequestState(remaining, ip)));
    }
    return Forward(None);
  }

  // ---------------------------------------------------------------------------
  // Routes

  /** The body of GET /health. */
  datatype Health = Health(status: string, geminiAvailable: bool, databaseConnected: bool)

  function HealthCheck(ai: Option<Gemini.Client>, db: Database?): (h: Health)
    ensures h.geminiAvailable <==> ai.Some?
    ensures h.databaseConnected <==> db != null
    ensures h.status == "healthy" <==> ai.Some? && db != null
    ensures h.status == "healthy" || h.status == "degraded"
  {
    var up := ai.Some? && db != null;
    Health(if up then "healthy" else "degraded", ai.Some?, db != null)
  }

  /** The body of GET /rate-limit-info: the store's report plus the limit. */
  datatype LimitReport = LimitReport(requestsMade: int, resetTime: Option<int>, timeUntilReset: int, limit: int)

  /** GET /rate-limit-info: 503 without a database, else the report for the
      caller's address with the limit of 3. */
  method RateLimitInfoRoute(db: Database?, req: Request, now: int) returns (r: Result<LimitReport, int>)
    ensures db == null ==> r == Failure(503)
    ensures db != null ==>
      var info := InfoOf(Lookup(db.rateLimits, ClientIp(req)), now);
      r == Success(LimitReport(info.requestsMade, info.resetTime, info.timeUntilReset, DEFAULT_LIMIT))
  {
    if db == null {
      return Failure(503);
    }
    var ip := ClientIp(req);
    var info := db.GetRateLimitInfo(ip, now);
    return Success(LimitReport(info.requestsMade, info.resetTime, info.timeUntilReset, DEFAULT_LIMIT));
  }

  /** The session id of a chat: the one the client sent when it is a
      non-empty string, otherwise the freshly generated one. */
  function SessionIdFor(supplied: Option<string>, generated: string): (sid: string)
    ensures Truthy(supplied) ==> sid == supplied.value
    ensures !Truthy(supplied) ==> sid == generated
    ensures generated != "" ==> sid != ""
  {
    if Truthy(supplied) then supplied.value else generated
  }

  /** The answer of POST /chat: the ChatResponse body, or an error status. */
  datatype ChatReply =
    | ChatOk(response: string, sessionId: string, remainingRequests: int, rateLimitInfo: RateInfo)
    | ChatError(status: int)

  /** The user message length the ChatMessage model accepts. */
  predicate ValidMessage(message: string) {
    1 <= |message| <= 2000
  }

  /** POST /chat, after the middleware. `state` is what the middleware
      recorded, `freshId` the uuid4 the handler would generate, `api` the
      Gemini service. */
  method Chat(ai: Option<Gemini.Client>, db: Database?, req: Request, state: Option<RequestState>,
              message: string, suppliedSession: Option<string>, freshId: string,
              api: Gemini.ApiCall -> Result<string, string>, now: int)
    returns (reply: ChatReply)
    modifies db
    // The request model rejects an empty or over-long message with 422.
    ensures !ValidMessage(message) ==> reply == ChatError(422)
    // Without the AI or the database the handler answers 503.
    ensures ValidMessage(message) && (ai.None? || db == null) ==> reply == ChatError(503)
    ensures db != null && !(ValidMessage(message) && ai.Some?) ==> unchanged(db)
    ensures ValidMessage(message) && ai.Some? && db != null ==>
      var ip := if state.Some? then state.value.ipAddress else ClientIp(req);
      var sid := SessionIdFor(suppliedSession, freshId);
      var before := HistoryOf(old(db.sessions), ip, sid);
      var text := Gemini.ReplyText(api(Gemini.ChatCall(message, before)));
      var taken := sid in old(db.sessions) && old(db.sessions)[sid].ipAddress != ip;
      db.rateLimits == old(db.rateLimits)
      // A session id held by another address makes the save fail: 500, nothing stored.
      && (taken ==> reply == ChatError(500) && db.sessions == old(db.sessions) && db.chatHistory == old(db.chatHistory))
      // Otherwise the reply is stored as the next turn of the session and returned.
      && (!taken ==>
            reply == ChatOk(text, sid, if state.Some? then state.value.remainingRequests else 0,
                            InfoOf(Lookup(db.rateLimits, ip), now))
            && db.sessions == SavedSessions(old(db.sessions), ip, sid, message, text, now).value
            && HistoryOf(db.sessions, ip, sid) == Extended(before, message, text, now)
            && db.chatHistory == old(db.chatHistory) + [ChatRecord(ip, sid, message, text, now)])
  {
    if !ValidMessage(message) {
      return ChatError(422);
    }
    if ai.None? {
      return ChatError(503);
    }
    if db == null {
      return ChatError(503);
    }
    var ip := if state.Some? then state.value.ipAddress else ClientIp(req);
    var remaining := if state.Some? then state.value.remainingRequests else 0;
    var sid := SessionIdFor(suppliedSession, freshId);
    var history := db.GetConversationHistory(ip, sid);
    var call, text := Gemini.GenerateResponse(message, history, api);
    assert call == Gemini.ChatCall(message, history);
    assert text == Gemini.ReplyText(api(call));
    var saved := db.SaveConversation(ip, sid, message, text, now);
    if !saved {
      return ChatError(500);
    }
    var info := db.GetRateLimitInfo(ip, now);
    return ChatOk(text, sid, remaining, info);
  }
}
