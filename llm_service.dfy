/** The language-model client (services/llm_service.py): the model name picks
    the provider ("gpt…" OpenAI, "claude…" Anthropic), the request is shaped
    for that provider, the reply text is taken from the provider's response
    layout, and a request is recorded in the request log when a bot name is
    given and logging is not skipped. The HTTP exchange is a parameter. */
module LlmService {
  import opened Wrappers
  import opened Text
  import opened ConfigLoader
  import opened Conversation

  /** What the caller passes: the chat-message list or one prompt string. */
  datatype Messages = ChatList(list: seq<ChatMessage>) | Prompt(text: string)

  /** The JSON body sent to a provider. */
  datatype Payload =
    | ChatCompletion(model: string, messages: Messages, maxTokens: int, temperature: real, topP: real)
    | AnthropicMessages(model: string, userContent: string, maxTokens: int, temperature: real)
    | AnthropicComplete(model: string, prompt: string, maxTokensToSample: int, temperature: real, topP: real)

  datatype Request = Request(endpoint: string, headers: seq<(string, string)>, payload: Payload)

  /** A provider's answer: the status, the body as text, and the body decoded
      as JSON (or the decoding error). */
  datatype HttpReply = HttpReply(status: int, text: string, json: Result<Json>)

  const OpenAIEndpoint := "https://api.openai.com/v1/chat/completions"
  const AnthropicMessagesEndpoint := "https://api.anthropic.com/v1/messages"
  const AnthropicCompleteEndpoint := "https://api.anthropic.com/v1/complete"
  const DefaultMaxTokenLimit := 500

  /** `_generate_openai_response`'s request. */
  function OpenAIRequest(apiKey: string, messages: Messages, model: string, maxTokens: int): (r: Request)
    ensures r.endpoint == OpenAIEndpoint
    ensures r.payload == ChatCompletion(model, messages, maxTokens, 0.7, 1.0)
    ensures ("Authorization", "Bearer " + apiKey) in r.headers
  {
    Request(OpenAIEndpoint,
            [("Content-Type", "application/json"), ("Authorization", "Bearer " + apiKey)],
            ChatCompletion(model, messages, maxTokens, 0.7, 1.0))
  }

  /** The prompt the legacy completion endpoint expects. */
  function LegacyPrompt(prompt: string): (p: string)
    ensures StartsWith(p, "\n\nHuman: ") && EndsWith(p, "\n\nAssistant:")
    ensures |p| == |prompt| + 21
  {
    var p := "\n\nHuman: " + prompt + "\n\nAssistant:";
    assert p[..9] == "\n\nHuman: ";
    assert p[|p| - 12..] == "\n\nAssistant:";
    p
  }

  /** `_generate_anthropic_response`'s request (the prompt is a string, as
      its signature declares): Claude 3 models use the
      messages endpoint with one user message, the others the legacy
      completion endpoint. */
  function AnthropicRequest(apiKey: string, prompt: string, model: string, maxTokens: int): (r: Request)
    ensures StartsWith(model, "claude-3") <==> r.endpoint == AnthropicMessagesEndpoint
    ensures StartsWith(model, "claude-3") ==> r.payload == AnthropicMessages(model, prompt, maxTokens, 0.7)
    ensures !StartsWith(model, "claude-3") ==>
              r.endpoint == AnthropicCompleteEndpoint
              && r.payload == AnthropicComplete(model, LegacyPrompt(prompt), maxTokens, 0.7, 1.0)
    ensures ("x-api-key", apiKey) in r.headers && ("anthropic-version", "2023-06-01") in r.headers
  {
    var headers := [("Content-Type", "application/json"), ("x-api-key", apiKey),
                    ("anthropic-version", "2023-06-01")];
    if StartsWith(model, "claude-3") then
      Request(AnthropicMessagesEndpoint, headers, AnthropicMessages(model, prompt, maxTokens, 0.7))
    else
      Request(AnthropicCompleteEndpoint, headers,
              AnthropicComplete(model, "\n\nHuman: " + prompt + "\n\nAssistant:", maxTokens, 0.7, 1.0))
  }

  /** `result[key]` on decoded JSON: the last field with that key (as
      `json.loads` keeps it), a KeyError otherwise. */
  function Lookup(j: Json, key: string): (r: Result<Json>)
    ensures r.Ok? ==> j.JObj? && exists i | 0 <= i < |j.fields| :: j.fields[i] == Field(key, r.value)
  {
    if !j.JObj? then Err("KeyError: " + key)
    else LastField(j.fields, key)
  }

  function LastField(fields: seq<Field>, key: string): (r: Result<Json>)
    ensures r.Ok? ==> exists i | 0 <= i < |fields| :: fields[i] == Field(key, r.value)
    ensures r.Err? <==> forall i | 0 <= i < |fields| :: fields[i].key != key
  {
    if fields == [] then Err("KeyError: " + key)
    else if fields[|fields| - 1].key == key then Ok(fields[|fields| - 1].value)
    else
      var r := LastField(fields[..|fields| - 1], key);
      if r.Ok? then
        var i :| 0 <= i < |fields| - 1 && fields[..|fields| - 1][i] == Field(key, r.value);
        assert fields[i] == Field(key, r.value);
        r
      else r
  }

  /** `result[0]`: the first element of a non-empty list. */
  function First(j: Json): (r: Result<Json>)
    ensures r.Ok? <==> j.JArr? && |j.items| > 0
    ensures r.Ok? ==> r.value == j.items[0]
  {
    if j.JArr? && |j.items| > 0 then Ok(j.items[0]) else Err("IndexError: list index out of range")
  }

  /** The reply content: a non-200 status raises with the status and body
      text, otherwise the content is taken from `choices[0].message.content`
      (OpenAI), `content[0].text` (Claude 3) or `completion` (legacy). */
  function ReplyContent(model: string, reply: HttpReply): (r: Result<Json>)
    ensures reply.status != 200 ==> r.Err? && StartsWith(r.error, ProviderName(model) + " API error: ")
  {
    if reply.status != 200 then
      var e := ProviderName(model) + " API error: " + IntToString(reply.status) + " - " + reply.text;
      assert e == (ProviderName(model) + " API error: ") + (IntToString(reply.status) + " - " + reply.text);
      Err(e)
    else
      var result :- reply.json;
      if StartsWith(model, "gpt") then
        var choices :- Lookup(result, "choices");
        var choice :- First(choices);
        var message :- Lookup(choice, "message");
        Lookup(message, "content")
      else if StartsWith(model, "claude-3") then
        var content :- Lookup(result, "content");
        var block :- First(content);
        Lookup(block, "text")
      else Lookup(result, "completion")
  }

  function ProviderName(model: string): string {
    if StartsWith(model, "gpt") then "OpenAI" else "Anthropic"
  }

  /** A "claude-3…" model name is a "claude…" name. */
  lemma Claude3IsClaude(model: string)
    requires StartsWith(model, "claude-3")
    ensures StartsWith(model, "claude")
  {
    assert model[..6] == model[..8][..6];
  }

  /** `fields[key]` finds the value of the last field when it carries the key,
      whatever fields precede it. */
  lemma LookupLast(fields: seq<Field>, key: string, x: Json)
    ensures Lookup(JObj(fields + [Field(key, x)]), key) == Ok(x)
  {
  }

  /** On status 200, every body in the provider's layout yields the content
      at the layout's path (`choices[0].message.content`, `content[0].text`
      or `completion`), whatever other fields and list items surround it; a
      legacy body yields content exactly when it is an object with a
      `completion` field, and an undecodable body raises for every model. */
  lemma ReplyContentReadsLayout(model: string, text: string, x: Json, outer: seq<Field>,
                                inner: seq<Field>, innermost: seq<Field>, rest: seq<Json>)
    ensures StartsWith(model, "gpt") ==>
              ReplyContent(model, HttpReply(200, text, Ok(JObj(outer + [Field("choices", JArr(
                [JObj(inner + [Field("message", JObj(innermost + [Field("content", x)]))])] + rest))]))))
              == Ok(x)
    ensures StartsWith(model, "claude-3") ==>
              ReplyContent(model, HttpReply(200, text, Ok(JObj(outer + [Field("content", JArr(
                [JObj(inner + [Field("text", x)])] + rest))]))))
              == Ok(x)
    ensures StartsWith(model, "claude") && !StartsWith(model, "claude-3") ==>
              ReplyContent(model, HttpReply(200, text, Ok(JObj(outer + [Field("completion", x)])))) == Ok(x)
    ensures forall j: Json ::
              StartsWith(model, "claude") && !StartsWith(model, "claude-3") ==>
              (ReplyContent(model, HttpReply(200, text, Ok(j))).Ok?
               <==> j.JObj? && exists i | 0 <= i < |j.fields| :: j.fields[i].key == "completion")
    ensures forall e: string ::
              ReplyContent(model, HttpReply(200, text, Err(e))) == Err(e)
  {
    PrefixesExclusive(model);
    if StartsWith(model, "gpt") {
      var message := JObj(innermost + [Field("content", x)]);
      var choice := JObj(inner + [Field("message", message)]);
      var choices := JArr([choice] + rest);
      LookupLast(outer, "choices", choices);
      LookupLast(inner, "message", message);
      LookupLast(innermost, "content", x);
    }
    if StartsWith(model, "claude-3") {
      Claude3IsClaude(model);
      var block := JObj(inner + [Field("text", x)]);
      LookupLast(outer, "content", JArr([block] + rest));
      LookupLast(inner, "text", x);
    }
    if StartsWith(model, "claude") && !StartsWith(model, "claude-3") {
      LookupLast(outer, "completion", x);
    }
  }

  /** Python truthiness of a decoded value. */
  predicate JsonTruthy(j: Json) {
    match j
    case JNull => false
    case JBool(b) => b
    case JNum(n) => n != 0
    case JStr(s) => s != ""
    case JArr(items) => items != []
    case JObj(fields) => fields != []
  }

  /** One row of the request log. */
  datatype LogRecord = LogRecord(model: string, messages: Messages, response: Json,
                                 botName: string, error: Option<string>)

  /** The request-log table. */
  class RequestLog {
    var records: seq<LogRecord>

    constructor()
      ensures records == []
    {
      records := [];
    }
  }

  /** No model name has both prefixes. */
  lemma PrefixesExclusive(model: string)
    ensures !(StartsWith(model, "gpt") && StartsWith(model, "claude"))
  {
    if StartsWith(model, "gpt") {
      assert model[0] == model[..3][0] == 'g';
      if |model| >= 6 {
        assert model[..6][0] == 'g';
      }
    }
  }

  /** Which provider a model name selects, or why the call raises before any
      request. */
  function SelectRequest(model: string, messages: Messages, maxTokens: int,
                         openaiApiKey: Option<string>, anthropicApiKey: Option<string>): (r: Result<Request>)
    requires StartsWith(model, "claude") ==> messages.Prompt?
    ensures !StartsWith(model, "gpt") && !StartsWith(model, "claude") ==> r == Err("Unsupported model: " + model)
    ensures StartsWith(model, "gpt") ==>
              r == if Truthy(openaiApiKey) then Ok(OpenAIRequest(openaiApiKey.value, messages, model, maxTokens))
                   else Err("OpenAI API key is required for GPT models")
    ensures StartsWith(model, "claude") && !Truthy(anthropicApiKey) ==>
              r == Err("Anthropic API key is required for Claude models")
    ensures StartsWith(model, "claude") && Truthy(anthropicApiKey) ==>
              r == Ok(AnthropicRequest(anthropicApiKey.value, messages.text, model, maxTokens))
    ensures r.Ok? ==> (StartsWith(model, "gpt") <==> r.value.endpoint == OpenAIEndpoint)
  {
    PrefixesExclusive(model);
    if StartsWith(model, "gpt") then
      if !Truthy(openaiApiKey) then Err("OpenAI API key is required for GPT models")
      else Ok(OpenAIRequest(openaiApiKey.value, messages, model, maxTokens))
    else if StartsWith(model, "claude") then
      if !Truthy(anthropicApiKey) then Err("Anthropic API key is required for Claude models")
      else Ok(AnthropicRequest(anthropicApiKey.value, messages.text, model, maxTokens))
    else Err("Unsupported model: " + model)
  }

  class LLMService {
    var openaiApiKey: Option<string>
    var anthropicApiKey: Option<string>
    var maxTokenLimit: int

    /** The keys and the token limit come from the environment; the limit
        defaults to 500. */
    constructor(openaiApiKey: Option<string>, anthropicApiKey: Option<string>, maxTokenLimit: Option<int>)
      ensures this.openaiApiKey == openaiApiKey && this.anthropicApiKey == anthropicApiKey
      ensures this.maxTokenLimit == maxTokenLimit.GetOr(DefaultMaxTokenLimit)
    {
      this.openaiApiKey := openaiApiKey;
      this.anthropicApiKey := anthropicApiKey;
      this.maxTokenLimit := maxTokenLimit.GetOr(DefaultMaxTokenLimit);
    }

    /** What `generate_response` returns or raises: the provider's reply
        content when it is truthy, None when it is falsy. */
    function Outcome(messages: Messages, model: string, maxTokens: Option<int>,
                     exchange: Request -> Result<HttpReply>): Result<Option<Json>>
      requires StartsWith(model, "claude") ==> messages.Prompt?
      reads this
    {
      var request :- SelectRequest(model, messages, maxTokens.GetOr(maxTokenLimit), openaiApiKey, anthropicApiKey);
      var reply :- exchange(request);
      var content :- ReplyContent(model, reply);
      if JsonTruthy(content) then Ok(Some(content)) else Ok(None)
    }

    /** `generate_response`. `exchange` performs the HTTP request (or raises);
        `logFails` says whether writing the log row raises, which is
        swallowed. A row is written exactly when `botName` is truthy and
        logging is not skipped, on success and on error alike. */
    method GenerateResponse(messages: Messages, model: string, maxTokens: Option<int>,
                            botName: Option<string>, skipLogging: bool,
                            exchange: Request -> Result<HttpReply>, log: RequestLog, logFails: bool)
      returns (r: Result<Option<Json>>)
      requires StartsWith(model, "claude") ==> messages.Prompt?
      modifies log
      ensures r == Outcome(messages, model, maxTokens, exchange)
      ensures r.Ok? && r.value.Some? ==> JsonTruthy(r.value.value)
      ensures Truthy(botName) && !skipLogging && !logFails ==>
                && |log.records| == |old(log.records)| + 1
                && log.records[..|old(log.records)|] == old(log.records)
                && log.records[|old(log.records)|].botName == botName.value
                && log.records[|old(log.records)|].error == (if r.Err? then Some(r.error) else None)
                && log.records[|old(log.records)|].messages == messages
                && log.records[|old(log.records)|].model == model
                && log.records[|old(log.records)|].response
                   == (if r.Ok? && r.value.Some? then r.value.value else JStr(""))
      ensures !(Truthy(botName) && !skipLogging && !logFails) ==> log.records == old(log.records)
    {
      var response: Option<Json> := None;
      var error: Option<string> := None;
      var tokens := if maxTokens.None? then maxTokenLimit else maxTokens.value;
      var request := SelectRequest(model, messages, tokens, openaiApiKey, anthropicApiKey);
      if request.Err? {
        error := Some(request.error);
      } else {
        var reply := exchange(request.value);
        if reply.Err? {
          error := Some(reply.error);
        } else {
          var content := ReplyContent(model, reply.value);
          if content.Err? {
            error := Some(content.error);
          } else {
            response := Some(content.value);
          }
        }
      }
      if Truthy(botName) && !skipLogging && !logFails {
        var logged := if response.Some? && JsonTruthy(response.value) then response.value else JStr("");
        log.records := log.records + [LogRecord(model, messages, logged, botName.value, error)];
      }
      if error.Some? {
        return Err(error.value);
      }
      if response.Some? && JsonTruthy(response.value) {
        return Ok(response);
      }
      return Ok(None);
    }
  }

  /** A model that is neither "gpt…" nor "claude…" raises without a request,
      whatever the exchange would answer. */
  lemma UnsupportedModelRaises(service: LLMService, messages: Messages, model: string,
                               maxTokens: Option<int>, exchange: Request -> Result<HttpReply>)
    requires !StartsWith(model, "gpt") && !StartsWith(model, "claude")
    ensures service.Outcome(messages, model, maxTokens, exchange) == Err("Unsupported model: " + model)
  {
  }

  /** An empty reply text comes back as None, not as an error. */
  lemma EmptyReplyIsNone(service: LLMService, messages: Messages, model: string,
                         maxTokens: Option<int>, exchange: Request -> Result<HttpReply>)
    requires StartsWith(model, "claude") && !StartsWith(model, "claude-3")
    requires Truthy(service.anthropicApiKey) && messages.Prompt?
    requires var req := AnthropicRequest(service.anthropicApiKey.value, messages.text, model,
                                         maxTokens.GetOr(service.maxTokenLimit));
             exchange(req) == Ok(HttpReply(200, "", Ok(JObj([Field("completion", JStr(""))]))))
    ensures service.Outcome(messages, model, maxTokens, exchange) == Ok(None)
  {
    PrefixesExclusive(model);
  }
}
