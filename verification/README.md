# Anonymous chat: a Dafny model of its core

The system is a small chat service. A FastAPI back end answers user messages
through Google's Gemini model. It limits each client address to 3 chat
requests per hour and keeps the recent conversation of each session in SQLite.
A React front end holds the chat input and shows answers with a typewriter
effect. This project models the logic of both halves and proves what it
promises:

- `chat_store.dfy` (module `ChatStore`): the store (`backend/database.py`).
  - The three tables become the map and sequence fields of the class `Database`.
  - Each method is tied to a specification function: `Admit`, `InfoOf`,
    `SavedSessions`, `RecentSessions`, `RecentRecords`.
  - Lemmas prove the "3 requests per hour" guarantee, the 20-message cap on a
    history, and that the rate-limit report predicts the limiter.
- `gemini.dfy` (module `Gemini`): the Gemini wrapper (`backend/gemini_ai.py`).
  - The constructor's API-key check and the model summary.
  - The conversion of a stored conversation into Gemini's history, as a loop
    proved against a recursive definition.
  - The fixed-priority classification of API errors.
- `server.dfy` (module `Server`): the HTTP layer (`backend/main.py`).
  - The client address behind proxies and the rate-limit middleware.
  - The health and rate-limit-info routes and the chat handler. The handler
    combines the store and the Gemini client.
- `chat_widget.dfy` (module `ChatWidget`): the chat input component
  (`frontend/src/components/ChatInput.tsx`).
  - Its React state as the fields of the class `ChatInput`.
  - The submit handler, split at its `await` into `BeginSubmit` and
    `FinishSubmit`.
  - The remaining-request count, the reset countdown and the disabled
    controls.
- `typewriter.dfy` (module `Typewriter`): the typewriter effect
  (`frontend/src/components/TypewriterEffect.tsx`). It is a class whose
  invariant is that the displayed text is always a prefix of the target text.
- `text.dfy` (module `Text`) and `wrappers.dfy` (module `Wrappers`): shared
  string helpers and the `Option`/`Result` types.
  - Python's and JavaScript's whitespace sets and trimming.
  - `split(",")[0]`, lower-casing for keyword search, and substring search.
  - Decimal rendering, with a proof that it reads back.

Clocks, the network, SQLite, `uuid4` and the Gemini service are parameters:
- The server's clock is a whole number of seconds.
- The browser's `Date.now()` is a whole number of milliseconds.
- The Gemini service is a function from the call made to either the reply text
  or the message of the exception it raises.
- `fetch` is its outcome: an exception, or a status with a JSON body.

Behaviour of the code that the model keeps, though a reader might expect
otherwise:
- `conversation_sessions` has `session_id` alone as its primary key
  (`backend/database.py:43-50`), but every query also filters by `ip_address`.
  Saving under a session id that another address holds finds no session, and
  its INSERT fails. The transaction is rolled back and `chat` answers 500. The
  model has this path (`SavedSessions` is `None`, `Chat` gives `ChatError(500)`).
- The middleware charges a request before the handler validates it. A POST
  /chat that is later answered with 422, 503 or 500 still uses up one of the
  hour's requests.
- When the typewriter's text changes, the typing effect first runs once with
  the old index. If that index is already at or past the new text's end, it
  calls `onComplete` before the reset.
- `clearConversation` is defined in the component but nothing calls it.

## Model

| member | source | states |
|---|---|---|
| ChatStore.Admit | backend/database.py:54-104 | A request is refused iff a running window (under an hour old) has reached the limit. A new address or an expired window starts a new window at `now` with count 1. An allowed request inside the window adds exactly 1; a refused one changes nothing. The remaining count is the limit minus the new count, or 0 when refused. A positive limit keeps the counter in 1..limit. |
| ChatStore.AdmittedWithinWindow | backend/database.py:83-104 | Within one window the limiter lets through exactly min(requests, limit − count so far) requests. |
| ChatStore.AtMostLimitPerHour | backend/database.py:54-104 | Of the requests an address sends within an hour of its first one, exactly min(n, limit) get through ("3 requests per hour"). |
| ChatStore.InfoOf | backend/database.py:211-233 | The report for an address with no row is (0, none, 0). Otherwise it gives the count and a reset one hour after the window opened. The wait is never negative, is positive exactly while the reset lies ahead, and then ends exactly at the reset. |
| ChatStore.InfoPredictsAdmission | backend/database.py:83-94 | While the reported wait is positive, the next request is allowed iff the reported count is below the limit. With a zero wait the next request opens a new window. |
| ChatStore.InfoAfterAdmission | backend/database.py:219-233 | Right after an allowed request, the report shows the new count and a wait in 1..3600 seconds. |
| ChatStore.RefusalReportsWait | backend/main.py:119-130 | A refused request is reported with a positive wait and a count at or above the limit. |
| ChatStore.Extended | backend/database.py:151-164 | The saved history has min(old + 2, 20) messages. It ends with the new user/assistant pair and is a suffix of the old history plus that pair. |
| ChatStore.SavedSessions | backend/database.py:124-191 | Saving fails iff the session id belongs to another address. Otherwise the session belongs to the caller and is stamped `now`. Reading it back gives the previous read extended by the pair. Every other session is unchanged. |
| ChatStore.FirstTurnStartsHistory | backend/database.py:171-189 | A new session, or one whose stored history cannot be parsed, ends up holding exactly [user message, assistant reply]. |
| ChatStore.HistoryStaysCapped | backend/database.py:162-164 | Starting from at most 20 messages, a save keeps at most 20 and ends with the new pair. |
| ChatStore.RecentSessions | backend/database.py:197-202 | Cleanup keeps exactly the sessions active at or after the cutoff, unchanged. |
| ChatStore.RecentRecords | backend/database.py:204-207 | Cleanup keeps exactly the chat records created at or after the cutoff, and the log never grows. |
| ChatStore.RecentRecordsCount | backend/database.py:204-207 | Each record created at or after the cutoff is kept as many times as the log holds it; every older one is dropped. |
| ChatStore.RecentRecordsConcat | backend/database.py:204-207 | Cleanup keeps the records' order: cleaning two stretches of the log and joining them is cleaning the whole log. |
| ChatStore.Database.constructor | backend/database.py:9-52 | Opening the store keeps the rows the file already holds. |
| ChatStore.Database.CheckRateLimit | backend/database.py:54-104 | Returns Admit's decision and remaining count and writes Admit's row for this address only. Other addresses and tables are unchanged. It preserves "every counter in 1..limit". |
| ChatStore.Database.GetConversationHistory | backend/database.py:106-122 | Returns the session's parsed history when the session belongs to the address. Otherwise, or when the history cannot be parsed, it returns []. |
| ChatStore.KeepsCap | backend/database.py:162-164 | Storing one session whose history holds at most 20 messages keeps every history in the table at most 20. |
| ChatStore.Database.AppendTurn | backend/database.py:151-164 | The appends of the user message and the reply, then `history[-20:]`, compute Extended of the stored history. |
| ChatStore.Database.SaveConversation | backend/database.py:124-191 | Leaves the session table as SavedSessions and appends one chat record. When the save fails, both tables are unchanged (rollback). It preserves "every history has at most 20 messages". |
| ChatStore.Database.CleanupOldSessions | backend/database.py:193-209 | Both tables are cut to the entries dated at or after now − days·86400. Rate limits are untouched. The history cap and the counter bound still hold afterwards. |
| ChatStore.Database.GetRateLimitInfo | backend/database.py:211-233 | Returns InfoOf the address's row. |
| ChatStore.Database.ClearRateLimits | backend/clear_rate_limits.py:26-28 | Empties the rate-limit table and reports how many rows it held. The other tables are unchanged. |
| Gemini.NewClient | backend/gemini_ai.py:7-27 | A client is made iff the passed key or the environment key is non-empty. The passed key wins. It has the four safety settings and 4096 output tokens. Otherwise the result is the ValueError message. |
| Gemini.ModelInfoOf | backend/gemini_ai.py:111-118 | Reports the model name, temperature and token limit. Safety is reported as enabled iff there are settings. |
| Gemini.CreatedClientHasSafety | backend/gemini_ai.py:15-27 | Every constructed client reports (gemini-2.0-flash-exp, 0.7, 4096, safety on). |
| Gemini.ConvertTurn | backend/gemini_ai.py:68-78 | A "user" message stays "user" and an "assistant" message becomes "model", each with its content as the only part. Any other role is dropped. |
| Gemini.Converted | backend/gemini_ai.py:65-78 | The converted history is no longer than the stored one and holds only the roles "user" and "model". |
| Gemini.ConvertedConcat | backend/gemini_ai.py:67-78 | Conversion keeps the order: it distributes over concatenation. |
| Gemini.ConvertedOneToOne | backend/gemini_ai.py:68-78 | A history of user/assistant messages, which is every history the store writes, converts message for message. |
| Gemini.ToGeminiHistory | backend/gemini_ai.py:67-78 | The conversion loop computes Converted. |
| Gemini.ErrorReply | backend/gemini_ai.py:89-100 | On the lower-cased message, "quota" or "limit" gives the high-demand reply. Otherwise "safety" or "blocked" gives the safety reply. Otherwise "api" or "key" gives the service reply. Anything else echoes the first 100 characters of the original message. The reply length is bounded. |
| Gemini.QuotaInAnyCase | backend/gemini_ai.py:91-94 | An error mentioning "quota" in any letter case gets the high-demand reply. |
| Gemini.ChatCall | backend/gemini_ai.py:65-85 | The prompt is always the message. The call is single-turn iff the history is empty; otherwise the chat starts from the converted history. |
| Gemini.ReplyText | backend/gemini_ai.py:87-100 | The reply is the service's text on success, and ErrorReply of the exception message on failure. |
| Gemini.GenerateResponse | backend/gemini_ai.py:61-100 | An empty history makes a single-turn call. Otherwise it starts a chat with the converted history. The reply is the service's text, or ErrorReply of its exception. The call and the reply are ChatCall and ReplyText. |
| Server.ClientIp | backend/main.py:89-101 | A non-empty X-Forwarded-For gives its first hop, trimmed and comma-free. Otherwise a non-empty X-Real-IP is used, then the peer address, then "unknown". |
| Server.ForwardedFirstHop | backend/main.py:92-94 | For a header "  addr  , rest", the address charged is exactly addr. |
| Server.RateLimitMiddleware | backend/main.py:103-136 | Exempt paths pass untouched. Any other path gets 503 without a database. Only POST /chat is charged, by Admit with limit 3. An allowed request passes on (remaining, address); a refused one gets 429 with the report. |
| Server.HealthCheck | backend/main.py:147-159 | "healthy" iff both services are up, otherwise "degraded"; the two flags say which service is up. |
| Server.RateLimitInfoRoute | backend/main.py:161-175 | 503 without a database; otherwise the caller's report with limit 3. |
| Server.SessionIdFor | backend/main.py:199 | A non-empty supplied id is kept; otherwise the generated one is used. |
| Server.Chat | backend/main.py:177-232 | A message outside 1..2000 characters gets 422. A missing service gets 503. A session id held by another address gets 500 and nothing is stored. Otherwise the session table becomes exactly SavedSessions of the old one (the session's owner is the caller, its last activity is now, every other session is kept) with the reply to the session's history as its next turn, one chat record is appended, and the reply is returned with the session id, the remaining count and the fresh report. |
| ChatWidget.RemainingAsWritten | frontend/src/components/ChatInput.tsx:125-128 | As written: 3 before any report, NaN when the report has no `limit`. Otherwise a number that is 0 iff the reported requests reach the limit, and else the limit minus the requests, i.e. max(0, limit − made). |
| ChatWidget.InputDisabledAsWritten | frontend/src/components/ChatInput.tsx:170 | As written, the input is disabled iff a request is pending or the report carries a limit that its requests have reached. |
| ChatWidget.MissingLimitNeverDisables | frontend/src/components/ChatInput.tsx:170 | As written, a report without `limit` never disables the input, even once 3 requests are used. With the corrected rule it does, until the reset time. |
| ChatWidget.RemainingRequests | frontend/src/components/ChatInput.tsx:125-128 | Corrected rule (see Findings): 3 before any report. 0 iff the counted requests have used up the limit (3 when not reported); a report's requests count until its reset time, none after it. Otherwise it is what is left of the limit. |
| ChatWidget.InputDisabled | frontend/src/components/ChatInput.tsx:170 | Corrected rule (see Findings): the input is disabled iff a request is pending, or the report is still in force and its requests have used up the limit (3 when not reported), or the report's reset time has passed and its limit is at most 0. |
| ChatWidget.SubmitDisabled | frontend/src/components/ChatInput.tsx:175 | Corrected rule (see Findings): the button is disabled iff the text is all whitespace or the corrected rule disables the input. |
| ChatWidget.SubmitDisabledAsWritten | frontend/src/components/ChatInput.tsx:175 | As written, the button is disabled iff the text is all whitespace or the as-written rule disables the input. |
| ChatWidget.MissingLimitKeepsButtonEnabled | frontend/src/components/ChatInput.tsx:175 | As written, with text typed and no request pending, a report without `limit` leaves the button enabled. The corrected rule disables it once 3 requests are used, until the reset time. |
| ChatWidget.WidgetAgreesWithLimiter | frontend/src/components/ChatInput.tsx:125-128 | Corrected rule (see Findings): given the report a /chat answer carries, at any later moment the corrected widget disables its input iff the server, at that moment in whole seconds, would refuse the next request. It re-enables once the window resets. |
| ChatWidget.MinutesSeconds | frontend/src/components/ChatInput.tsx:138-139 | minutes·60 + seconds equals the whole seconds left, with seconds below 60. |
| ChatWidget.TimeUntilReset | frontend/src/components/ChatInput.tsx:130-145 | Nothing without a reset time or once the reset has passed. Otherwise "Mm Ss", or "Ss" under a minute. |
| ChatWidget.CountdownReadsBack | frontend/src/components/ChatInput.tsx:138-145 | The numbers in the countdown read back to minutes·60 + seconds = the whole seconds left, with seconds below 60. |
| ChatWidget.FailureText | frontend/src/components/ChatInput.tsx:65-67 | The shown error is the first non-empty of the body's error and message, else "HTTP error! status: N". A thrown error shows its own message. |
| ChatWidget.Submitted | frontend/src/components/ChatInput.tsx:35-37 | Nothing is sent iff the input is all whitespace or a request is pending. Otherwise the trimmed input is sent, and it is never empty. |
| ChatWidget.SubmittedDropsPadding | frontend/src/components/ChatInput.tsx:35-37 | A message typed with surrounding whitespace is sent as the bare text. |
| ChatWidget.ChatInput.constructor | frontend/src/components/ChatInput.tsx:24-31 | The initial state: empty input, not loading, no conversation, answer, session, report or error. |
| ChatWidget.ChatInput.SetMessage | frontend/src/components/ChatInput.tsx:168 | Typing replaces the input text and nothing else. |
| ChatWidget.ChatInput.BeginSubmit | frontend/src/components/ChatInput.tsx:33-61 | When Submitted gives nothing, it sends nothing and changes nothing. Otherwise it sends the trimmed text with the current session id and records it as a user message. The input is cleared, loading starts, and the error and the answer are reset. |
| ChatWidget.ChatInput.RecordUserMessage | frontend/src/components/ChatInput.tsx:38-49 | The input is cleared, loading starts, the error and the answer are reset, and the user message is appended. The session, report and typing flag are unchanged. |
| ChatWidget.ChatInput.FinishSubmit | frontend/src/components/ChatInput.tsx:63-109 | Loading always ends and the typed text is kept. Success appends the assistant message, starts typing, shows and passes on the reply, and takes a new report. The session id changes only to a non-empty id that differs from the one sent. Failure sets the error and shows "❌ Error: " + its text, leaving the conversation, session and report unchanged. |
| ChatWidget.ChatInput.ClearConversation | frontend/src/components/ChatInput.tsx:112-119 | Forgets the conversation, answer, session, error and report and stops typing. The input text and loading stay. |
| Typewriter.TypewriterEffect.constructor | frontend/src/components/TypewriterEffect.tsx:18-20 | It starts with nothing typed and the cursor on. The prefix invariant holds. |
| Typewriter.TypewriterEffect.FinishedShowsAll | frontend/src/components/TypewriterEffect.tsx:33-42 | In every state where the prefix invariant holds, Finished() means the whole text is displayed, and Typing() means a proper prefix is. The one onComplete call outside such a state is the early one of a text change (see ChangeText). |
| Typewriter.TypewriterEffect.TypingStep | frontend/src/components/TypewriterEffect.tsx:33-37 | A tick appends the next character and advances the index by one. The displayed text stays the prefix of that length. |
| Typewriter.TypewriterEffect.BlinkTick | frontend/src/components/TypewriterEffect.tsx:23-26 | A blink flips the cursor flag and keeps the prefix invariant. |
| Typewriter.TypewriterEffect.CursorWhileTyping | frontend/src/components/TypewriterEffect.tsx:54 | While typing, the cursor is shown. Once finished, it is shown iff the blink flag is on. |
| Typewriter.TypewriterEffect.ChangeText | frontend/src/components/TypewriterEffect.tsx:32-49 | onComplete fires on a text change iff the old index is at or past the new text's end. The display and the index are then reset, and the invariant holds for the new text. |
| Text.Trim | backend/main.py:94 | The trimmed text is empty iff the input is all whitespace. It has whitespace at neither end. |
| Text.TrimIsMiddle | backend/main.py:94 | The trimmed text is a slice of the input with only whitespace before and after it. |
| Text.TrimPadded | frontend/src/components/ChatInput.tsx:37 | Trimming a word padded with whitespace gives back the word. |
| Text.FirstField | backend/main.py:94 | `split(",")[0]` is the prefix before the first comma, or the whole text. |
| Text.FirstFieldStops | backend/main.py:94 | A comma-free field followed by a comma and the rest splits back to that field. |
| Text.LowerChar | backend/gemini_ai.py:91 | A character lower-cases to at least one character, none of them an ASCII capital, the KELVIN SIGN or the dotted capital I. Any other character is kept; an ASCII capital becomes the small letter at the same place in the alphabet. |
| Text.Lower | backend/gemini_ai.py:91 | The lower case is no shorter than the text and holds none of those characters. A text without them is its own lower case. |
| Text.LowerKeepsContains | backend/gemini_ai.py:91 | If a text contains a word, its lower case contains the word's lower case. |
| Text.NatToString | frontend/src/components/ChatInput.tsx:141-144 | A number is written as digits only, with no leading zero. |
| Text.NatToStringRoundTrip | frontend/src/components/ChatInput.tsx:141-144 | The decimal rendering of n reads back as n. |

## Left out

- The clock: `datetime.now()`, SQLite's `CURRENT_TIMESTAMP` and `Date.now()` become integer parameters.
  - The model does not capture that `CURRENT_TIMESTAMP` is UTC while `datetime.now()` is local time, which can shift the cleanup cutoff for chat records.
  - Sub-second parts of a time are not modelled. With a real clock, `int()` at backend/database.py:232 reports a wait under one second as 0, while check_rate_limit still refuses the request until the full hour has passed; `ChatStore.InfoPredictsAdmission` holds only for whole-second clocks.
  - ISO-string timestamps and `new Date(...)` parsing are not modelled.
  - The `int()` truncation of `time_until_reset` is the identity on whole seconds.
- SQLite, JSON, `fetch`, `uuid4` and the Gemini SDK are foreign code. Their effects are parameters:
  - an unparsable stored history is `None`;
  - the Gemini call is a function from the call to its text or its exception message;
  - the fetch is its outcome.
- JSON values that parse but are not a list of messages are not modelled.
- Other database errors that would also lead to a 500 are not modelled.
- Concurrency is not modelled. This includes the read-then-write race between concurrent `check_rate_limit` calls and a blink tick that lands during typing; each tick is one atomic step.
- FastAPI's lifespan setup, CORS, and the 429/500 exception handlers are out of scope.
- These routes are out of scope: `/`, `/conversation/{session_id}` (GET and DELETE) and `/model-info`.
- The model does not capture the wording of HTTPException details. FastAPI sends them under `detail`, which the widget does not read, so the widget shows "HTTP error! status: N".
- `validate_api_key` and the system prompt are out of scope: one is a call to the service and the other is constant text.
- `Text.LowerChar`: only lower-casing that can create or destroy an ASCII keyword is modelled. Other characters are kept as they are, which does not change whether "quota", "limit", "safety", "blocked", "api" or "key" occur.
- `Text.Lower`: inherits the gap of `Text.LowerChar`: a non-ASCII capital such as "É" is its own `Lower` but not its own Python `lower()`. Which ASCII keywords occur is the same either way.
- `Typewriter.TypewriterEffect.TypingStep`: indexes by Unicode scalar value. JavaScript's `text[i]` indexes UTF-16 code units, so a character outside the Basic Multilingual Plane takes two ticks there.
- `ChatWidget.InputDisabled`: the rule is evaluated at a given moment. The component evaluates it only when it renders, and nothing makes it render when the reset time passes, so the re-enabling the rule promises shows at the next render.
- Timer delays, `Math.random` jitter and the transient render between a text change and its reset are not modelled.
- `formatTimestamp`, the scroll and layout code, and the rendering of the three components around the widget are not modelled.
- `ChatWidget.ChatInput.FinishSubmit`: a thrown value that is not an `Error` ("An unknown error occurred") is not modelled; `fetch` and `response.json()` only throw `Error`s.

## Findings

| source | as written | input that shows it | evidently intended | confidence | as-written member | corrected member |
|---|---|---|---|---|---|---|
| frontend/src/components/ChatInput.tsx:127 | `Math.max(0, rateLimitInfo.limit - rateLimitInfo.requests_made)`. The report stored from a /chat answer comes from `get_rate_limit_info` (backend/database.py:229-233), which has no `limit` key, so the result is NaN. `NaN === 0` is false, so the input, the button and the "wait for reset" notice never react to the limit. | After three chats in an hour the widget holds `{requests_made: 3, reset_time: …, time_until_reset: 1800}`. It shows "Requests remaining: NaN/3" and keeps the input enabled. The fourth message is refused with 429. | The limit defaults to the server's 3, so the count reaches 0 and the controls are disabled until the reset time, after which the count is back to 3. | high (not executed) | ChatWidget.RemainingAsWritten, ChatWidget.InputDisabledAsWritten, ChatWidget.SubmitDisabledAsWritten, ChatWidget.MissingLimitNeverDisables, ChatWidget.MissingLimitKeepsButtonEnabled | ChatWidget.RemainingRequests, ChatWidget.InputDisabled, ChatWidget.SubmitDisabled, ChatWidget.WidgetAgreesWithLimiter |
