/** The chat input widget of the front end
    (frontend/src/components/ChatInput.tsx): its React state as the fields of
    a class, the submit handler split at its `await` into the part that sends
    the request and the part that handles the answer, the reset, and the pure
    rules that derive the remaining-request count, the reset countdown and the
    disabled controls from the state. The network answer and `Date.now()` (in
    milliseconds) are parameters. */
module ChatWidget {
  import opened Wrappers
  import opened Text
  import ChatStore

  /** The count shown before the server has reported anything. */
  const DEFAULT_REMAINING: nat := 3

  /** The limit the server enforces (the RateLimitInfo model's default). */
  const SERVER_LIMIT: int := 3

  const ERROR_PREFIX: string := "❌ Error: "

  /** An entry of the `conversation` state. */
  datatype ChatMessage = ChatMessage(role: string, content: string, timestamp: int)

  /** The `rateLimitInfo` state as the server sends it: requests_made,
      reset_time (None for null; otherwise the clock value `new Date` gives
      it, in milliseconds), time_until_reset, and limit, which is None when
      the payload has no such key. */
  datatype RateLimitInfo = RateLimitInfo(requestsMade: int, resetTime: Option<int>, timeUntilReset: int, limit: Option<int>)

  // ---------------------------------------------------------------------------
  // Remaining requests and the disabled controls

  /** A JavaScript number as far as getRemainingRequests needs one: an
      integer, or the NaN that arithmetic on `undefined` yields. */
  datatype JsNumber = Num(value: int) | NaN

  /** getRemainingRequests as written: `Math.max(0, limit - requests_made)`,
      where a missing `limit` is `undefined` and the result NaN. */
  function RemainingAsWritten(info: Option<RateLimitInfo>): (r: JsNumber)
    ensures info.None? ==> r == Num(DEFAULT_REMAINING)
    ensures info.Some? && info.value.limit.None? ==> r == NaN
    ensures info.Some? && info.value.limit.Some? ==> r.Num? && r.value >= 0
    // With a limit: zero exactly when the reported requests reach it, otherwise what is left of it.
    ensures info.Some? && info.value.limit.Some? ==>
      (r.value == 0 <==> info.value.requestsMade >= info.value.limit.value)
    ensures info.Some? && info.value.limit.Some? && r.value > 0 ==>
      r.value + info.value.requestsMade == info.value.limit.value
  {
    match info
    case None => Num(DEFAULT_REMAINING)
    case Some(i) =>
      match i.limit
      case None => NaN
      case Some(l) => Num(Max(0, l - i.requestsMade))
  }

  /** The input's `disabled` attribute as written: `isLoading || getRemainingRequests() === 0`. */
  function InputDisabledAsWritten(isLoading: bool, info: Option<RateLimitInfo>): (d: bool)
    // Only a report that carries a limit can disable the input.
    ensures d <==> (isLoading
                    || (info.Some? && info.value.limit.Some? && info.value.requestsMade >= info.value.limit.value))
  {
    isLoading || RemainingAsWritten(info) == Num(0)
  }

  /** The send button's `disabled` attribute as written:
      `!message.trim() || isLoading || getRemainingRequests() === 0`. */
  function SubmitDisabledAsWritten(message: string, isLoading: bool, info: Option<RateLimitInfo>): (d: bool)
    ensures d <==> AllOf(message, IsJsSpace) || InputDisabledAsWritten(isLoading, info)
  {
    Trim(message, IsJsSpace) == "" || isLoading || RemainingAsWritten(info) == Num(0)
  }

  /** The report a successful chat stores has no `limit` (the store's
      get_rate_limit_info returns none), so as written the widget never
      disables its input for the rate limit: after the third request of the
      hour it still accepts a fourth, which the server refuses with 429. The
      corrected rule disables it until the reset. */
  lemma MissingLimitNeverDisables(info: RateLimitInfo, now: int)
    requires info.limit.None?
    ensures !InputDisabledAsWritten(false, Some(info))
    ensures info.requestsMade >= SERVER_LIMIT && InForce(info, now) ==> InputDisabled(false, Some(info), now)
  {
  }

  /** The same for the send button: with text typed and no request pending,
      a report without `limit` leaves it enabled as written, while the
      corrected rule disables it once the limit is used up, until the reset. */
  lemma MissingLimitKeepsButtonEnabled(message: string, info: RateLimitInfo, now: int)
    requires info.limit.None? && !AllOf(message, IsJsSpace)
    ensures !SubmitDisabledAsWritten(message, false, Some(info))
    ensures info.requestsMade >= SERVER_LIMIT && InForce(info, now) ==> SubmitDisabled(message, false, Some(info), now)
  {
  }

  /** The limit that applies: the reported one, or the server's fixed limit
      when the report leaves it out. */
  function LimitOf(info: RateLimitInfo): int {
    info.limit.GetOr(SERVER_LIMIT)
  }

  /** The report still describes the server's current window: its reset
      time (in milliseconds) has not yet come. */
  predicate InForce(info: RateLimitInfo, now: int) {
    info.resetTime.None? || now < info.resetTime.value
  }

  /** The requests that count against the current window: the reported ones
      while the report is in force, none once its window has reset. */
  function Counted(info: RateLimitInfo, now: int): int {
    if InForce(info, now) then info.requestsMade else 0
  }

  /** getRemainingRequests, with the missing limit read as the server's and
      a report whose reset time has passed read as a fresh window. */
  function RemainingRequests(info: Option<RateLimitInfo>, now: int): (r: nat)
    ensures info.None? ==> r == DEFAULT_REMAINING
    // Zero exactly when the counted requests have used up the limit; otherwise
    // what is left of it.
    ensures info.Some? ==> (r == 0 <==> Counted(info.value, now) >= LimitOf(info.value))
    ensures info.Some? && r > 0 ==> r + Counted(info.value, now) == LimitOf(info.value)
  {
    match info
    case None => DEFAULT_REMAINING
    case Some(i) => Max(0, LimitOf(i) - Counted(i, now))
  }

  /** The input is disabled while a request is pending and, until the reset,
      once the reported requests have used up the limit. */
  function InputDisabled(isLoading: bool, info: Option<RateLimitInfo>, now: int): (d: bool)
    ensures d <==> (isLoading
                    || (info.Some? && InForce(info.value, now) && info.value.requestsMade >= LimitOf(info.value))
                    || (info.Some? && !InForce(info.value, now) && LimitOf(info.value) <= 0))
  {
    isLoading || RemainingRequests(info, now) == 0
  }

  /** The send button is disabled in those cases and also while the typed
      text is all whitespace. */
  function SubmitDisabled(message: string, isLoading: bool, info: Option<RateLimitInfo>, now: int): (d: bool)
    ensures d <==> AllOf(message, IsJsSpace) || InputDisabled(isLoading, info, now)
  {
    Trim(message, IsJsSpace) == "" || isLoading || RemainingRequests(info, now) == 0
  }

  /** The report of the store as the /chat answer carries it to the widget:
      no `limit` key, and the reset time as a millisecond clock value. */
  function FromServer(info: ChatStore.RateInfo): RateLimitInfo {
    RateLimitInfo(info.requestsMade,
                  if info.resetTime.Some? then Some(info.resetTime.value * 1000) else None,
                  info.timeUntilReset, None)
  }

  /** A millisecond clock value lies before whole second `sec` exactly when
      its whole seconds do. */
  lemma BeforeSecond(ms: int, sec: int)
    ensures ms < sec * 1000 <==> ms / 1000 < sec
  {
    var q := ms / 1000;
    assert ms == q * 1000 + ms % 1000 && 0 <= ms % 1000 < 1000;
    if q < sec {
      assert q * 1000 <= (sec - 1) * 1000;
    } else {
      assert q * 1000 >= sec * 1000;
    }
  }

  /** With the corrected rule the widget agrees with the limiter at every
      moment after the report, as long as no other request from the address
      reaches the server: its input is disabled exactly when the server,
      whose clock is the widget's in whole seconds, would refuse the next
      request. In particular it re-enables once the window resets. */
  lemma WidgetAgreesWithLimiter(row: ChatStore.RateRow, reportTime: int, nowMs: int)
    ensures InputDisabled(false, Some(FromServer(ChatStore.InfoOf(Some(row), reportTime))), nowMs)
      <==> !ChatStore.Admit(Some(row), nowMs / 1000, ChatStore.DEFAULT_LIMIT).allowed
  {
    BeforeSecond(nowMs, row.lastReset + ChatStore.HOUR);
  }

  // ---------------------------------------------------------------------------
  // Reset countdown

  /** The whole minutes and leftover whole seconds of a positive span of
      milliseconds: `Math.floor(diff / 60000)` and
      `Math.floor((diff % 60000) / 1000)`. */
  function MinutesSeconds(diff: int): (ms: (nat, nat))
    requires diff > 0
    ensures ms.1 < 60
    ensures ms.0 * 60 + ms.1 == diff / 1000
  {
    var minutes := diff / 60000;
    var rest := diff % 60000;
    var seconds := rest / 1000;
    assert diff == minutes * 60000 + seconds * 1000 + rest % 1000;
    DivideByThousand(minutes * 60 + seconds, rest % 1000, diff);
    (minutes, seconds)
  }

  lemma DivideByThousand(q: int, r: int, n: int)
    requires 0 <= r < 1000 && n == q * 1000 + r
    ensures n / 1000 == q
  {
  }

  /** getTimeUntilReset: nothing without a reset time or once it has passed;
      otherwise "Mm Ss", or just "Ss" when under a minute is left. */
  function TimeUntilReset(info: Option<RateLimitInfo>, now: int): (r: Option<string>)
    ensures r.None? <==> info.None? || info.value.resetTime.None? || info.value.resetTime.value <= now
    ensures r.Some? ==>
      var ms := MinutesSeconds(info.value.resetTime.value - now);
      r.value == if ms.0 > 0 then NatToString(ms.0) + "m " + NatToString(ms.1) + "s" else NatToString(ms.1) + "s"
  {
    if info.None? || info.value.resetTime.None? then None
    else
      var diff := info.value.resetTime.value - now;
      if diff <= 0 then None
      else
        var ms := MinutesSeconds(diff);
        if ms.0 > 0 then Some(NatToString(ms.0) + "m " + NatToString(ms.1) + "s")
        else Some(NatToString(ms.1) + "s")
  }

  /** The countdown spells out the whole seconds left: read back, its numbers
      give minutes * 60 + seconds == diff / 1000 with seconds below 60. */
  lemma {:induction false} CountdownReadsBack(info: RateLimitInfo, now: int)
    requires info.resetTime.Some? && info.resetTime.value > now
    ensures var diff := info.resetTime.value - now;
      var ms := MinutesSeconds(diff);
      var text := TimeUntilReset(Some(info), now).value;
      (ms.0 > 0 ==> text == NatToString(ms.0) + "m " + NatToString(ms.1) + "s")
      && DigitsValue(NatToString(ms.0)) * 60 + DigitsValue(NatToString(ms.1)) == diff / 1000
      && DigitsValue(NatToString(ms.1)) < 60
  {
    var ms := MinutesSeconds(info.resetTime.value - now);
    NatToStringRoundTrip(ms.0);
    NatToStringRoundTrip(ms.1);
  }

  // ---------------------------------------------------------------------------
  // The component

  /** The body of the POST /chat request. */
  datatype ChatRequest = ChatRequest(message: string, sessionId: Option<string>)

  /** The parsed JSON body of an answer (the fields the handler reads). */
  datatype ResponseBody = ResponseBody(response: string, sessionId: Option<string>,
                                       rateLimitInfo: Option<RateLimitInfo>,
                                       error: Option<string>, message: Option<string>)

  /** How the request ends: `fetch` or `response.json()` throws an Error with
      this message, or an answer arrives with its `ok` flag, status and body. */
  datatype FetchOutcome = Threw(reason: string) | Answered(ok: bool, status: nat, body: ResponseBody)

  predicate Succeeded(outcome: FetchOutcome) {
    outcome.Answered? && outcome.ok
  }

  /** The error message of a failed request: the thrown Error's message, or
      the first non-empty of data.error, data.message and the HTTP status text. */
  function FailureText(outcome: FetchOutcome): (text: string)
    ensures outcome.Threw? ==> text == outcome.reason
    ensures outcome.Answered? && Truthy(outcome.body.error) ==> text == outcome.body.error.value
    ensures outcome.Answered? && !Truthy(outcome.body.error) && Truthy(outcome.body.message) ==>
      text == outcome.body.message.value
    ensures outcome.Answered? && !Truthy(outcome.body.error) && !Truthy(outcome.body.message) ==>
      text == "HTTP error! status: " + NatToString(outcome.status)
  {
    match outcome
    case Threw(reason) => reason
    case Answered(_, status, body) =>
      if Truthy(body.error) then body.error.value
      else if Truthy(body.message) then body.message.value
      else "HTTP error! status: " + NatToString(status)
  }

  /** What handleSubmit sends: nothing when the input is all whitespace or a
      request is pending, otherwise the input trimmed, which is never empty. */
  function Submitted(message: string, isLoading: bool): (text: Option<string>)
    ensures text.None? <==> AllOf(message, IsJsSpace) || isLoading
    ensures text.Some? ==> text.value != "" && text.value == Trim(message, IsJsSpace)
  {
    var trimmed := Trim(message, IsJsSpace);
    if trimmed == "" || isLoading then None else Some(trimmed)
  }

  /** Sending undoes padding: a message typed with surrounding whitespace is
      sent as the bare text. */
  lemma SubmittedDropsPadding(pre: string, word: string, post: string)
    requires AllOf(pre, IsJsSpace) && AllOf(post, IsJsSpace)
    requires word != [] && !IsJsSpace(word[0]) && !IsJsSpace(word[|word| - 1])
    ensures Submitted(pre + word + post, false) == Some(word)
  {
    TrimPadded(pre, word, post, IsJsSpace);
  }

  class ChatInput {
    var message: string
    var isLoading: bool
    var conversation: seq<ChatMessage>
    var latestResponse: Option<string>
    var sessionId: Option<string>
    var rateLimitInfo: Option<RateLimitInfo>
    var error: Option<string>
    var isTyping: bool

    /** The initial useState values. */
    constructor ()
      ensures message == "" && !isLoading && conversation == [] && latestResponse == None
      ensures sessionId == None && rateLimitInfo == None && error == None && !isTyping
    {
      message := "";
      isLoading := false;
      conversation := [];
      latestResponse := None;
      sessionId := None;
      rateLimitInfo := None;
      error := None;
      isTyping := false;
    }

    /** The input's onChange. */
    method SetMessage(text: string)
      modifies this`message
      ensures message == text
    {
      message := text;
    }

    /** handleSubmit up to its `await fetch`: the request it sends, if any. */
    method BeginSubmit(now: int) returns (sent: Option<ChatRequest>)
      modifies this
      // Nothing to send (see Submitted): nothing changes.
      ensures Submitted(old(message), old(isLoading)).None? ==>
        sent == None && message == old(message) && isLoading == old(isLoading)
        && conversation == old(conversation) && latestResponse == old(latestResponse) && error == old(error)
      // Otherwise the trimmed text is sent with the current session id and
      // recorded as a user message; the box is cleared and loading starts.
      ensures Submitted(old(message), old(isLoading)).Some? ==>
        var text := Submitted(old(message), old(isLoading)).value;
        sent == Some(ChatRequest(text, old(sessionId)))
        && message == "" && isLoading && error == None && latestResponse == None
        && conversation == old(conversation) + [ChatMessage("user", text, now)]
      ensures sessionId == old(sessionId) && rateLimitInfo == old(rateLimitInfo) && isTyping == old(isTyping)
    {
      var userMessage := Submitted(message, isLoading);
      if userMessage.None? {
        return None;
      }
      sent := Some(ChatRequest(userMessage.value, sessionId));
      RecordUserMessage(userMessage.value, now);
    }

    /** The state updates of handleSubmit before the request goes out. */
    method RecordUserMessage(text: string, now: int)
      modifies this
      ensures message == "" && isLoading && error == None && latestResponse == None
      ensures conversation == old(conversation) + [ChatMessage("user", text, now)]
      ensures sessionId == old(sessionId) && rateLimitInfo == old(rateLimitInfo) && isTyping == old(isTyping)
    {
      message := "";
      isLoading := true;
      error := None;
      latestResponse := None;
      conversation := conversation + [ChatMessage("user", text, now)];
    }

    /** handleSubmit after its `await`: handles how the request `sent` ended
      and returns the text passed to onNewResponse. */
    method FinishSubmit(sent: ChatRequest, outcome: FetchOutcome, now: int) returns (notified: string)
      modifies this
      // Loading ends on every path; what the user has typed meanwhile is kept.
      ensures !isLoading && message == old(message)
      ensures Succeeded(outcome) ==>
        var body := outcome.body;
        notified == body.response && latestResponse == Some(body.response) && isTyping
        && conversation == old(conversation) + [ChatMessage("assistant", body.response, now)]
        && rateLimitInfo == (if body.rateLimitInfo.Some? then body.rateLimitInfo else old(rateLimitInfo))
        && error == old(error)
      // The session id changes only to a non-empty id the answer carries that
      // differs from the one the request was sent with.
      ensures sessionId ==
        if Succeeded(outcome) && Truthy(outcome.body.sessionId) && outcome.body.sessionId != sent.sessionId
        then outcome.body.sessionId else old(sessionId)
      ensures !Succeeded(outcome) ==>
        error == Some(FailureText(outcome)) && latestResponse == Some(ERROR_PREFIX + FailureText(outcome))
        && notified == ERROR_PREFIX + FailureText(outcome)
        && conversation == old(conversation) && rateLimitInfo == old(rateLimitInfo) && isTyping == old(isTyping)
    {
      if Succeeded(outcome) {
        var data := outcome.body;
        if Truthy(data.sessionId) && data.sessionId != sent.sessionId {
          sessionId := data.sessionId;
        }
        if data.rateLimitInfo.Some? {
          rateLimitInfo := data.rateLimitInfo;
        }
        conversation := conversation + [ChatMessage("assistant", data.response, now)];
        isTyping := true;
        latestResponse := Some(data.response);
        notified := data.response;
      } else {
        var errorMessage := FailureText(outcome);
        error := Some(errorMessage);
        var errorResponse := ERROR_PREFIX + errorMessage;
        latestResponse := Some(errorResponse);
        notified := errorResponse;
      }
      isLoading := false;
    }

    /** clearConversation: forgets the conversation, the answer, the session,
      the error and the rate-limit report; the typed text and loading stay. */
    method ClearConversation()
      modifies this
      ensures conversation == [] && latestResponse == None && sessionId == None
      ensures error == None && rateLimitInfo == None && !isTyping
      ensures message == old(message) && isLoading == old(isLoading)
    {
      conversation := [];
      latestResponse := None;
      sessionId := None;
      error := None;
      rateLimitInfo := None;
      isTyping := false;
    }
  }
}
