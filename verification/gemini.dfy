/** The Gemini client wrapper (backend/gemini_ai.py): the API-key check of
    its constructor, the translation of a stored conversation into the history
    the chat API takes, the choice between a single-turn and a multi-turn call,
    the fixed-priority classification of API errors into user-facing replies,
    and the model summary. The Gemini service itself is a parameter: a
    function from the call made to its reply text or to the message of the
    exception it raises. */
module Gemini {
  import opened Wrappers
  import opened Text
  import ChatStore

  const MODEL_NAME: string := "gemini-2.0-flash-exp"

  const MISSING_KEY: string :=
    "Google API key is required. Set GOOGLE_API_KEY environment variable or pass api_key parameter."

  datatype SafetySetting = SafetySetting(category: string, threshold: string)

  /** The four harm categories, each blocked from medium probability up. */
  const SAFETY_SETTINGS: seq<SafetySetting> := [
    SafetySetting("HARM_CATEGORY_HARASSMENT", "BLOCK_MEDIUM_AND_ABOVE"),
    SafetySetting("HARM_CATEGORY_HATE_SPEECH", "BLOCK_MEDIUM_AND_ABOVE"),
    SafetySetting("HARM_CATEGORY_SEXUALLY_EXPLICIT", "BLOCK_MEDIUM_AND_ABOVE"),
    SafetySetting("HARM_CATEGORY_DANGEROUS_CONTENT", "BLOCK_MEDIUM_AND_ABOVE")
  ]

  /** A configured client: its key, generation_config and safety_settings. */
  datatype Client = Client(apiKey: string, temperature: real, topP: real, topK: int,
                           maxOutputTokens: int, safetySettings: seq<SafetySetting>)

  /** GeminiAI(api_key): the key passed in when it is a non-empty string,
      otherwise GOOGLE_API_KEY from the environment; a ValueError when neither
      is one. */
  function NewClient(apiKey: Option<string>, envKey: Option<string>): (r: Result<Client, string>)
    ensures r.Success? <==> Truthy(apiKey) || Truthy(envKey)
    ensures r.Success? ==> r.value.apiKey != "" && r.value.apiKey == (if Truthy(apiKey) then apiKey.value else envKey.value)
    ensures r.Success? ==> r.value.safetySettings == SAFETY_SETTINGS && r.value.maxOutputTokens == 4096
    ensures r.Failure? ==> r.error == MISSING_KEY
  {
    var key := if Truthy(apiKey) then apiKey else envKey;
    if !Truthy(key) then Failure(MISSING_KEY)
    else Success(Client(key.value, 0.7, 0.8, 64, 4096, SAFETY_SETTINGS))
  }

  /** What get_model_info reports. */
  datatype ModelInfo = ModelInfo(modelName: string, temperature: real, maxTokens: int, safetySettingsEnabled: bool)

  function ModelInfoOf(c: Client): (info: ModelInfo)
    ensures info.modelName == MODEL_NAME
    ensures info.temperature == c.temperature && info.maxTokens == c.maxOutputTokens
    ensures info.safetySettingsEnabled <==> |c.safetySettings| > 0
  {
    ModelInfo(MODEL_NAME, c.temperature, c.maxOutputTokens, |c.safetySettings| > 0)
  }

  /** Every client the constructor makes reports its safety settings as enabled. */
  lemma CreatedClientHasSafety(apiKey: Option<string>, envKey: Option<string>)
    requires NewClient(apiKey, envKey).Success?
    ensures ModelInfoOf(NewClient(apiKey, envKey).value) == ModelInfo(MODEL_NAME, 0.7, 4096, true)
  {
  }

  // ---------------------------------------------------------------------------
  // History translation

  /** An entry of the history start_chat takes: a role and its parts. */
  datatype Content = Content(role: string, parts: seq<string>)

  /** The entries one stored message contributes: one for the roles "user"
      (kept) and "assistant" (renamed "model"), none for any other role. */
  function ConvertTurn(t: ChatStore.Turn): (c: seq<Content>)
    ensures |c| == 1 <==> t.role == "user" || t.role == "assistant"
    ensures |c| <= 1
    ensures |c| == 1 ==> c[0].parts == [t.content] && (c[0].role == "user" <==> t.role == "user")
    ensures |c| == 1 ==> (c[0].role == "model" <==> t.role == "assistant")
  {
    if t.role == "user" then [Content("user", [t.content])]
    else if t.role == "assistant" then [Content("model", [t.content])]
    else []
  }

  /** The history generate_response hands to start_chat. */
  function Converted(history: seq<ChatStore.Turn>): (c: seq<Content>)
    ensures |c| <= |history|
    ensures forall k :: 0 <= k < |c| ==> c[k].role == "user" || c[k].role == "model"
  {
    if history == [] then []
    else Converted(history[..|history| - 1]) + ConvertTurn(history[|history| - 1])
  }

  /** Converting keeps the order: the conversion of a concatenation is the
      concatenation of the conversions. */
  lemma {:induction false} ConvertedConcat(a: seq<ChatStore.Turn>, b: seq<ChatStore.Turn>)
    ensures Converted(a + b) == Converted(a) + Converted(b)
    decreases |b|
  {
    if b == [] {
      assert a + b == a;
    } else {
      var ab := a + b;
      assert ab[..|ab| - 1] == a + b[..|b| - 1];
      assert ab[|ab| - 1] == b[|b| - 1];
      ConvertedConcat(a, b[..|b| - 1]);
    }
  }

  /** A history whose roles are all "user" or "assistant" (every history
      save_conversation writes) converts message for message. */
  lemma {:induction false} ConvertedOneToOne(history: seq<ChatStore.Turn>)
    requires forall k :: 0 <= k < |history| ==> history[k].role == "user" || history[k].role == "assistant"
    ensures |Converted(history)| == |history|
    ensures forall k :: 0 <= k < |history| ==>
      Converted(history)[k] == Content(if history[k].role == "user" then "user" else "model", [history[k].content])
  {
    if history != [] {
      var init := history[..|history| - 1];
      ConvertedOneToOne(init);
      var c := Converted(history);
      assert c == Converted(init) + ConvertTurn(history[|history| - 1]);
      forall k | 0 <= k < |history|
        ensures c[k] == Content(if history[k].role == "user" then "user" else "model", [history[k].content])
      {
        if k < |init| { assert history[k] == init[k]; }
      }
    }
  }

  /** The conversion loop of generate_response. */
  method ToGeminiHistory(history: seq<ChatStore.Turn>) returns (chatHistory: seq<Content>)
    ensures chatHistory == Converted(history)
  {
    chatHistory := [];
    var i := 0;
    while i < |history|
      invariant 0 <= i <= |history|
      invariant chatHistory == Converted(history[..i])
    {
      var turn := history[i];
      assert history[..i + 1][..i] == history[..i];
      if turn.role == "user" {
        chatHistory := chatHistory + [Content("user", [turn.content])];
      } else if turn.role == "assistant" {
        chatHistory := chatHistory + [Content("model", [turn.content])];
      }
      i := i + 1;
    }
    assert history[..i] == history;
  }

  // ---------------------------------------------------------------------------
  // Error classification

  const QUOTA_REPLY: string :=
    "The collective is experiencing high demand. Please try again in a moment, fellow digital warrior."
  const SAFETY_REPLY: string :=
    "Your query has triggered our safety protocols. The collective values responsible discourse - please rephrase your question."
  const SERVICE_REPLY: string :=
    "The collective's neural networks are temporarily unavailable. The administrators have been notified."
  const ANOMALY_PREFIX: string := "An anomaly has occurred in the matrix: "
  const ANOMALY_SUFFIX: string := "... The collective will adapt and overcome."

  /** The three keyword groups, tested on the lowered message in this order. */
  predicate MentionsQuota(m: string) { Contains(m, "quota") || Contains(m, "limit") }
  predicate MentionsSafety(m: string) { Contains(m, "safety") || Contains(m, "blocked") }
  predicate MentionsKey(m: string) { Contains(m, "api") || Contains(m, "key") }

  /** The reply generate_response gives when the API raises `error`. */
  function ErrorReply(error: string): (r: string)
    ensures MentionsQuota(Lower(error)) ==> r == QUOTA_REPLY
    ensures !MentionsQuota(Lower(error)) && MentionsSafety(Lower(error)) ==> r == SAFETY_REPLY
    ensures !MentionsQuota(Lower(error)) && !MentionsSafety(Lower(error)) && MentionsKey(Lower(error)) ==>
      r == SERVICE_REPLY
    // Any other error is echoed, cut to its first 100 characters.
    ensures !MentionsQuota(Lower(error)) && !MentionsSafety(Lower(error)) && !MentionsKey(Lower(error)) ==>
      r == ANOMALY_PREFIX + error[..Min(100, |error|)] + ANOMALY_SUFFIX
    ensures |r| <= |ANOMALY_PREFIX| + 100 + |ANOMALY_SUFFIX|
  {
    var m := Lower(error);
    if MentionsQuota(m) then QUOTA_REPLY
    else if MentionsSafety(m) then SAFETY_REPLY
    else if MentionsKey(m) then SERVICE_REPLY
    else
      ANOMALY_PREFIX + error[..Min(100, |error|)] + ANOMALY_SUFFIX
  }

  /** The keywords match in any letter case: an error that says "QUOTA" or
      "Quota" gets the high-demand reply. */
  lemma QuotaInAnyCase(error: string, word: string)
    requires Contains(error, word) && Lower(word) == "quota"
    ensures ErrorReply(error) == QUOTA_REPLY
  {
    LowerKeepsContains(error, word);
  }

  // ---------------------------------------------------------------------------
  // generate_response

  /** The call generate_response makes: generate_content with the message
      alone, or start_chat with the converted history then send_message. */
  datatype ApiCall = SingleTurn(prompt: string) | MultiTurn(history: seq<Content>, prompt: string)

  /** The call generate_response makes for a message and a stored history:
      the message alone for an empty history, otherwise a chat that starts
      from the converted history. */
  function ChatCall(message: string, history: seq<ChatStore.Turn>): (c: ApiCall)
    ensures c.prompt == message
    ensures c.SingleTurn? <==> history == []
    ensures c.MultiTurn? ==> c.history == Converted(history)
  {
    if history == [] then SingleTurn(message) else MultiTurn(Converted(history), message)
  }

  /** The text generate_response returns for the service's outcome: the
      generated text, or the friendly reply for its error. */
  function ReplyText(outcome: Result<string, string>): (t: string)
    ensures outcome.Success? ==> t == outcome.value
    ensures outcome.Failure? ==> t == ErrorReply(outcome.error)
  {
    if outcome.Success? then outcome.value else ErrorReply(outcome.error)
  }

  /** generate_response(message, conversation_history). An absent history is
      passed as []. */
  method GenerateResponse(message: string, history: seq<ChatStore.Turn>, api: ApiCall -> Result<string, string>)
    returns (call: ApiCall, reply: string)
    ensures history == [] ==> call == SingleTurn(message)
    ensures history != [] ==> call == MultiTurn(Converted(history), message)
    ensures api(call).Success? ==> reply == api(call).value
    ensures api(call).Failure? ==> reply == ErrorReply(api(call).error)
    ensures call == ChatCall(message, history) && reply == ReplyText(api(call))
  {
    if history != [] {
      var chatHistory := ToGeminiHistory(history);
      call := MultiTurn(chatHistory, message);
    } else {
      call := SingleTurn(message);
    }
    var outcome := api(call);
    if outcome.Success? {
      reply := outcome.value;
    } else {
      reply := ErrorReply(outcome.error);
    }
  }
}
