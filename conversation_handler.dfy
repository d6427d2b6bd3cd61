/** One persona's handling of chat traffic (mixins/conversation_handler.py):
    the guards and the cooldown state machine of `process_message`, the
    response hook (`should_respond_to_message`, overridden by the secondary
    persona of bots/secondary_bot.py), the deferred cooldown reset, the reply
    pipeline of `respond_to_message` and the guards of
    `send_scheduled_message`; together with the field-assigning
    `load_character_settings` (mixins/character_manager.py).

    A persona owns its conversation buffer, utility selector, character
    store, LLM client and request log. Discord messages arrive as values and
    the texts the persona sends are recorded in `sent`. The clocks, the random
    draws, the formatted timestamps and the collaborators' answers (the HTTP
    exchange, the page fetches, the Notion query) are parameters. */
module ConversationHandler {
  import opened Wrappers
  import opened Text
  import opened Conversation
  import opened Notion
  import opened Utility
  import opened CharacterManager
  import opened UrlContent
  import opened ConfigLoader
  import opened LlmService
  import opened RandomDelay
  import SecondaryBot

  /** The settings `BotConfig` reads from the environment. */
  datatype BotConfig = BotConfig(characterName: string, notionCharacterName: string, channelId: int,
                                 minResponseDelay: int, maxResponseDelay: int, maxConversationTurns: int)

  /** The configuration for a character, from the environment values that
      are set (`CHANNEL_ID`, `MIN_RESPONSE_DELAY`, `MAX_RESPONSE_DELAY`,
      `MAX_CONVERSATION_TURNS`); the Notion name is the character name. */
  function ConfigFor(characterName: string, channelId: Option<int>, minResponseDelay: Option<int>,
                     maxResponseDelay: Option<int>, maxConversationTurns: Option<int>): (c: BotConfig)
    ensures c.characterName == characterName && c.notionCharacterName == characterName
    ensures channelId.Some? ==> c.channelId == channelId.value
    ensures minResponseDelay.Some? ==> c.minResponseDelay == minResponseDelay.value
    ensures maxResponseDelay.Some? ==> c.maxResponseDelay == maxResponseDelay.value
    ensures maxConversationTurns.Some? ==> c.maxConversationTurns == maxConversationTurns.value
  {
    BotConfig(characterName, characterName, channelId.GetOr(0), minResponseDelay.GetOr(5),
              maxResponseDelay.GetOr(15), maxConversationTurns.GetOr(10))
  }

  /** With nothing set in the environment: every channel, a 5 to 15 second
      delay and a cooldown after 10 turns. */
  lemma DefaultConfig(characterName: string)
    ensures var c := ConfigFor(characterName, None, None, None, None);
            && c.notionCharacterName == c.characterName == characterName
            && c.channelId == 0 && c.minResponseDelay == 5 && c.maxResponseDelay == 15
            && c.maxConversationTurns == 10
  {
  }

  /** A Discord message as the handler sees it. `fromSelf` says the author is
      the persona's own user; `channelName` is None for a channel without a
      name (a direct message). */
  datatype Message = Message(fromSelf: bool, authorName: string, channelId: int,
                             channelName: Option<string>, content: string)

  /** The channel name recorded with an entry. */
  function ChannelLabel(m: Message): string {
    if m.channelName.Some? then m.channelName.value else "DM"
  }

  /** A text sent to a channel. */
  datatype Sent = Sent(channelId: int, text: string)

  /** The base persona answers every message; the secondary one answers with
      its response probability. */
  datatype Kind = Base | Secondary(responseProbability: real)

  /** How the three calls whose arguments do not fit their targets behave.
      As written each one raises: `generate_response` takes no `n`, the
      buffer has no `get_recent_history`, and `format_character_prompt` takes
      no `base_role`. Corrected, they make the call evidently meant. */
  datatype CallSites = CallSites(passesCandidateCount: bool, callsRecentHistory: bool,
                                 passesBaseRole: bool)

  const AsWritten := CallSites(true, true, true)
  const Corrected := CallSites(false, false, false)

  const CandidateCountError := "TypeError: generate_response() got an unexpected keyword argument 'n'"
  const RecentHistoryError := "AttributeError: 'ConversationManager' object has no attribute 'get_recent_history'"
  const BaseRoleError := "TypeError: format_character_prompt() got an unexpected keyword argument 'base_role'"
  const UrlContentError := "AttributeError: 'ConversationManager' object has no attribute 'add_url_content'"
  const PromptNotLoadedError := "TypeError: the system prompt has not been loaded"
  const NoReplyError := "TypeError: the reply is not text"

  /** What `process_message` did with one message. */
  datatype Handling =
    | Skipped                      // own message, another channel, or a command
    | Dropped                      // arrived during a cooldown
    | CooldownStarted(minutes: int)
    | Answer                       // a reply is scheduled
    | NoAnswer                     // the response hook declined

  /** `should_respond_to_message`: always in the base persona; in the
      secondary one exactly when the draw does not exceed the probability. */
  function ShouldRespondToMessage(kind: Kind, r: UnitDraw): (answer: bool)
    ensures kind.Base? ==> answer
    ensures kind.Secondary? ==> (answer <==> r <= kind.responseProbability)
  {
    match kind
    case Base => true
    case Secondary(p) => SecondaryBot.ShouldRespond(p, r)
  }

  /** A secondary persona whose probability is at least 1 answers like the
      base one; one below 0 never answers. */
  lemma ProbabilityExtremes(p: real, r: UnitDraw)
    ensures p >= 1.0 ==> ShouldRespondToMessage(Secondary(p), r) == ShouldRespondToMessage(Base, r)
    ensures p < 0.0 ==> !ShouldRespondToMessage(Secondary(p), r)
  {
  }

  /** The model named by the character: "gpt-4" without a character or
      without a `model` setting. A setting that is not text has no
      `startswith`, so the reply fails there. */
  function ModelOf(character: Option<Character>): (r: Result<string>)
    ensures !CharacterTruthy(character) ==> r == Ok("gpt-4")
    ensures CharacterTruthy(character) && "model" !in character.value ==> r == Ok("gpt-4")
    ensures CharacterTruthy(character) && "model" in character.value ==>
              (r.Ok? <==> character.value["model"].Str?)
    ensures r.Ok? && CharacterTruthy(character) && "model" in character.value ==>
              r.value == character.value["model"].s
  {
    if !CharacterTruthy(character) || "model" !in character.value then Ok("gpt-4")
    else
      var v := character.value["model"];
      if v.Str? then Ok(v.s) else Err("AttributeError: the model setting has no startswith()")
  }

  /** The default record selects an OpenAI model, so its prompt is a message
      list. */
  lemma DefaultCharacterUsesOpenAI(name: string)
    ensures ModelOf(Some(DefaultCharacter(name))) == Ok("gpt-4")
    ensures StartsWith("gpt-4", "gpt")
  {
    assert "gpt-4"[..3] == "gpt";
  }

  /** The prompt in the form the model's provider takes: the message list for
      "gpt…" models, the flat transcript for every other model. */
  function PromptFor(model: string, systemPrompt: string, contextInfo: string, h: seq<Entry>): (p: Messages)
    ensures p.ChatList? <==> StartsWith(model, "gpt")
    ensures p.ChatList? ==> p.list == OpenAIMessages(systemPrompt, contextInfo, h)
    ensures p.Prompt? ==> StartsWith(p.text, systemPrompt + "\n\n") && EndsWith(p.text, "Assistant: ")
    ensures StartsWith(model, "claude") ==> p.Prompt?
  {
    PrefixesExclusive(model);
    if StartsWith(model, "gpt") then ChatList(OpenAIMessages(systemPrompt, contextInfo, h))
    else
      AnthropicPromptShape(systemPrompt, contextInfo, h);
      Prompt(AnthropicPrompt(systemPrompt, contextInfo, h))
  }

  /** The candidate replies in what `generate_response` returned: the texts
      of a list, or one text. None (an empty reply) has no length and an
      empty list no first element, so those fail. */
  function Candidates(responses: Option<Json>): (r: Result<seq<string>>)
    ensures r.Ok? ==> r.value != []
    ensures responses.Some? && responses.value.JStr? ==> r == Ok([responses.value.s])
    ensures responses.None? ==> r.Err?
    ensures responses.Some? && responses.value.JArr? ==>
              (r.Ok? <==> responses.value.items != [] && forall i | 0 <= i < |responses.value.items| ::
                                                            responses.value.items[i].JStr?)
    ensures r.Ok? && responses.value.JArr? ==>
              |r.value| == |responses.value.items|
              && forall i | 0 <= i < |r.value| :: responses.value.items[i] == JStr(r.value[i])
  {
    if responses.None? then Err("TypeError: object of type 'NoneType' has no len()")
    else
      match responses.value
      case JStr(s) => Ok([s])
      case JArr(items) =>
        if items != [] && forall i | 0 <= i < |items| :: items[i].JStr? then
          Ok(seq(|items|, i requires 0 <= i < |items| && items[i].JStr? => items[i].s))
        else Err(NoReplyError)
      case _ => Err(NoReplyError)
  }

  /** The joined URL blocks are never empty, so they are always truthy. */
  lemma UrlBlocksTruthy(urls: seq<string>, fetch: string -> Result<Fetched>)
    requires urls != []
    ensures Join(UrlBlocks(urls, fetch), "\n\n") != ""
  {
    var bs := UrlBlocks(urls, fetch);
    JoinStartsWithFirst(bs, "\n\n");
    assert StartsWith(bs[0], "URL: " + urls[0] + "\n");
  }

  class Persona {
    const config: BotConfig
    const commandPrefix: string
    const baseRole: Option<string>
    const kind: Kind
    const sites: CallSites
    const manager: ConversationManager
    const utility: UtilityFunction
    const notion: NotionService
    const llm: LLMService
    const requestLog: RequestLog

    var dbInitialized: bool
    var inCooldown: bool
    var cooldownUntil: real
    var character: Option<Character>
    var systemPrompt: Option<string>
    var sent: seq<Sent>

    /** The selector keeps one weight per dimension and the buffer keeps at
        least one entry. */
    predicate Valid()
      reads this, utility, manager
    {
      utility.Valid() && manager.maxHistory >= 1
    }

    /** `__init__` with `setup_conversation_handling`: a fresh buffer of ten
        entries, the default utility weights, no character or prompt yet, no
        cooldown, and the database not yet initialised. */
    constructor (config: BotConfig, commandPrefix: string, baseRole: Option<string>, kind: Kind,
                 sites: CallSites, notion: NotionService, llm: LLMService)
      ensures this.config == config && this.commandPrefix == commandPrefix && this.baseRole == baseRole
      ensures this.kind == kind && this.sites == sites && this.notion == notion && this.llm == llm
      ensures fresh(manager) && fresh(utility) && fresh(requestLog)
      ensures manager.history == [] && manager.conversationTurns == 0 && manager.maxHistory == 10
      ensures utility.alpha == DefaultAlpha && utility.beta == DefaultBeta
      ensures requestLog.records == []
      ensures !dbInitialized && !inCooldown && cooldownUntil == 0.0
      ensures character == None && systemPrompt == None && sent == []
      ensures Valid()
    {
      this.config := config;
      this.commandPrefix := commandPrefix;
      this.baseRole := baseRole;
      this.kind := kind;
      this.sites := sites;
      this.notion := notion;
      this.llm := llm;
      manager := new ConversationManager(10, 4000);
      utility := new UtilityFunction();
      requestLog := new RequestLog();
      dbInitialized := false;
      inCooldown := false;
      cooldownUntil := 0.0;
      character := None;
      systemPrompt := None;
      sent := [];
    }

    /** The database initialisation task reports whether it succeeded. */
    method DatabaseInitialized(success: bool)
      modifies this
      ensures dbInitialized == success
      ensures inCooldown == old(inCooldown) && cooldownUntil == old(cooldownUntil)
      ensures character == old(character) && systemPrompt == old(systemPrompt) && sent == old(sent)
    {
      dbInitialized := success;
    }

    /** The guards `process_message` passes before touching any state: not
        the persona's own message, the configured channel (any channel when
        the id is 0), and not a command. */
    predicate Admits(m: Message) {
      && !m.fromSelf
      && !(config.channelId != 0 && m.channelId != config.channelId)
      && !StartsWith(m.content, commandPrefix)
    }

    /** `process_message`. `fetch` answers the page fetches of the URL step,
        `rawMinutes` is the cooldown draw, `loopTime` the event-loop clock,
        `r` the secondary persona's draw and `timestamp` the formatted clock
        of the append. `urlError` is the error the URL step logs: the buffer
        has no `add_url_content`, so whenever a message carries a URL the
        step raises, the error is caught, and the URL content never reaches
        the history. */
    method ProcessMessage(m: Message, fetch: string -> Result<Fetched>, rawMinutes: nat, loopTime: real,
                          r: UnitDraw, timestamp: string)
      returns (h: Handling, urlError: Option<string>)
      requires Valid()
      modifies this, manager
      ensures Valid()
      ensures character == old(character) && systemPrompt == old(systemPrompt)
      ensures sent == old(sent) && dbInitialized == old(dbInitialized)
      ensures manager.maxHistory == old(manager.maxHistory)
      ensures !Admits(m) || old(inCooldown) ==>
                && h == (if Admits(m) then Dropped else Skipped)
                && urlError == None
                && manager.history == old(manager.history)
                && manager.conversationTurns == old(manager.conversationTurns)
                && manager.channelName == old(manager.channelName)
                && inCooldown == old(inCooldown) && cooldownUntil == old(cooldownUntil)
      ensures Admits(m) && !old(inCooldown) ==>
                && manager.channelName == (if ChannelLabel(m) != "" then Some(ChannelLabel(m))
                                           else old(manager.channelName))
                && manager.history == Evict(old(manager.history)
                                            + [Entry(m.authorName, m.content, timestamp, false, manager.channelName)],
                                            manager.maxHistory)
                && (urlError.Some? <==> PyTake(ExtractUrls(m.content), 3) != [])
                && (urlError.Some? ==> urlError.value == UrlContentError)
      ensures Admits(m) && !old(inCooldown) && old(manager.conversationTurns) + 1 >= config.maxConversationTurns ==>
                && h.CooldownStarted? && 1 <= h.minutes <= 3
                && inCooldown && cooldownUntil == loopTime + (60 * h.minutes) as real
                && manager.conversationTurns == 0
      ensures Admits(m) && !old(inCooldown) && old(manager.conversationTurns) + 1 < config.maxConversationTurns ==>
                && h == (if ShouldRespondToMessage(kind, r) then Answer else NoAnswer)
                && !inCooldown && cooldownUntil == old(cooldownUntil)
                && manager.conversationTurns == old(manager.conversationTurns) + 1
    {
      urlError := None;
      if m.fromSelf {
        return Skipped, urlError;
      }
      if config.channelId != 0 && m.channelId != config.channelId {
        return Skipped, urlError;
      }
      if StartsWith(m.content, commandPrefix) {
        return Skipped, urlError;
      }
      if inCooldown {
        return Dropped, urlError;
      }
      var channelName := ChannelLabel(m);
      manager.AddMessage(m.authorName, m.content, None, Some(channelName), timestamp);
      var urlContent := ProcessMessageUrls(m.content, 3, fetch);
      if urlContent.Some? {
        UrlBlocksTruthy(PyTake(ExtractUrls(m.content), 3), fetch);
      }
      if urlContent.Some? && urlContent.value != "" {
        urlError := Some(UrlContentError);
      }
      if manager.ShouldCoolDown(config.maxConversationTurns) {
        inCooldown := true;
        manager.ResetConversationTurns();
        var minutes := RandInt(1, 3, rawMinutes).value;
        cooldownUntil := loopTime + (minutes * 60) as real;
        return CooldownStarted(minutes), urlError;
      }
      if ShouldRespondToMessage(kind, r) {
        h := Answer;
      } else {
        h := NoAnswer;
      }
    }

    /** `reset_cooldown_after`: once the wait is over the cooldown ends,
        whatever happened meanwhile. */
    method ResetCooldownAfter()
      modifies this
      ensures !inCooldown
      ensures cooldownUntil == old(cooldownUntil) && dbInitialized == old(dbInitialized)
      ensures character == old(character) && systemPrompt == old(systemPrompt) && sent == old(sent)
    {
      inCooldown := false;
    }

    /** The reply the selector picks: the first candidate of greatest utility
        among several, scored against the character's keywords (whose
        extraction can raise), or the only one. */
    function Choice(candidates: seq<string>): (r: Result<string>)
      requires candidates != []
      reads this, utility
      ensures |candidates| == 1 ==> r == Ok(candidates[0])
      ensures r.Ok? ==> r.value in candidates
      ensures |candidates| > 1 ==>
                (r.Ok? <==> ExtractCharacterKeywords(character).Ok?)
                && (r.Ok? ==> var us := utility.Utilities(candidates, ExtractCharacterKeywords(character).value);
                              exists i :: IsFirstMax(us, i) && r.value == candidates[i])
    {
      if |candidates| > 1 then
        var keywords :- ExtractCharacterKeywords(character);
        Ok(candidates[FirstMaxIndex(utility.Utilities(candidates, keywords))])
      else Ok(candidates[0])
    }

    /** The prompt and model of a reply are settled before the LLM is
        called: the delay range is valid, the model setting is text and the
        system prompt has been loaded. */
    predicate Prepared(rawDelay: nat)
      reads this
    {
      DelaySeconds(config.minResponseDelay, config.maxResponseDelay, rawDelay).Ok?
      && ModelOf(character).Ok? && systemPrompt.Some?
    }

    /** The request `respond_to_message` hands to the LLM client. */
    function ReplyMessages(m: Message, guidance: string, now: string): (p: Messages)
      requires systemPrompt.Some? && ModelOf(character).Ok?
      reads this, manager
      ensures StartsWith(ModelOf(character).value, "claude") ==> p.Prompt?
    {
      var model := ModelOf(character).value;
      var adjusted := AdjustSystemPromptForSender(systemPrompt.value, m.authorName, guidance);
      PromptFor(model, adjusted, ContextInfo(now, manager.channelName, manager.conversationTurns), manager.history)
    }

    /** What `respond_to_message` sends in answer to `m`, or the error that
        ends it before the history update, from the state before the call. */
    function ReplyPlan(m: Message, rawDelay: nat, guidance: string, now: string,
                       exchange: Request -> Result<HttpReply>, rawSpeed: nat, u: UnitDraw): Result<string>
      reads this, manager, utility, llm
    {
      var seconds :- DelaySeconds(config.minResponseDelay, config.maxResponseDelay, rawDelay);
      var model :- ModelOf(character);
      if systemPrompt.None? then Err(PromptNotLoadedError)
      else if sites.passesCandidateCount then Err(CandidateCountError)
      else
        var responses :- llm.Outcome(ReplyMessages(m, guidance, now), model, None, exchange);
        ReplyFromResponses(responses, rawSpeed, u)
    }

    /** What follows the LLM call: the recent-history lookup, the
        candidates, the choice among them and the typing draw. */
    function ReplyFromResponses(responses: Option<Json>, rawSpeed: nat, u: UnitDraw): Result<string>
      reads this, utility
    {
      if sites.callsRecentHistory then Err(RecentHistoryError)
      else
        var candidates :- Candidates(responses);
        var response :- Choice(candidates);
        var typing :- TypingDuration(|response|, DefaultSpeedRange, rawSpeed, u);
        Ok(response)
    }

    /** The formatting step of `respond_to_message`: the system prompt
        adjusted for the sender, rendered with the buffer in the model's
        format. */
    method PrepareMessages(m: Message, guidance: string, now: string, model: string) returns (messages: Messages)
      requires systemPrompt.Some? && ModelOf(character) == Ok(model)
      ensures messages == ReplyMessages(m, guidance, now)
    {
      var adjusted := AdjustSystemPromptForSender(systemPrompt.value, m.authorName, guidance);
      if StartsWith(model, "gpt") {
        var list := manager.FormatForOpenAI(adjusted, now);
        messages := ChatList(list);
      } else {
        var text := manager.FormatForAnthropic(adjusted, now);
        messages := Prompt(text);
      }
    }

    /** The selection step of `respond_to_message`: the selector chooses
        among several candidates, a single one is taken as is. */
    method PickReply(candidates: seq<string>) returns (r: Result<string>)
      requires candidates != [] && Valid()
      ensures r == Choice(candidates)
    {
      if |candidates| > 1 {
        var keywords := ExtractCharacterKeywords(character);
        if keywords.Err? {
          return Err(keywords.error);
        }
        var best := utility.SelectOptimalResponse(candidates, keywords.value);
        return Ok(best);
      }
      return Ok(candidates[0]);
    }

    /** `respond_to_message` up to the history update: the delay, the
        prompt, the LLM call (which writes the request log), the selection
        and the typing simulation. The result is the reply to send, or the
        error that ended the attempt. */
    method ComposeReply(m: Message, rawDelay: nat, guidance: string, now: string,
                        exchange: Request -> Result<HttpReply>, logFails: bool,
                        rawSpeed: nat, u: UnitDraw, typingStart: real, typingEnd: real)
      returns (r: Result<string>)
      requires Valid()
      modifies requestLog
      ensures r == ReplyPlan(m, rawDelay, guidance, now, exchange, rawSpeed, u)
      ensures !Prepared(rawDelay) || sites.passesCandidateCount ==>
                requestLog.records == old(requestLog.records)
      ensures Prepared(rawDelay) && !sites.passesCandidateCount ==>
                if config.characterName != "" && dbInitialized && !logFails then
                  && |requestLog.records| == |old(requestLog.records)| + 1
                  && requestLog.records[..|old(requestLog.records)|] == old(requestLog.records)
                  && requestLog.records[|old(requestLog.records)|].botName == config.characterName
                else requestLog.records == old(requestLog.records)
    {
      var seconds := DelaySeconds(config.minResponseDelay, config.maxResponseDelay, rawDelay);
      if seconds.Err? {
        return Err(seconds.error);
      }
      var model := ModelOf(character);
      if model.Err? {
        return Err(model.error);
      }
      if systemPrompt.None? {
        return Err(PromptNotLoadedError);
      }
      var messages := PrepareMessages(m, guidance, now, model.value);
      if sites.passesCandidateCount {
        return Err(CandidateCountError);
      }
      var responses := llm.GenerateResponse(messages, model.value, None, Some(config.characterName),
                                            !dbInitialized, exchange, requestLog, logFails);
      if responses.Err? {
        return Err(responses.error);
      }
      r := FinishReply(responses.value, rawSpeed, u, typingStart, typingEnd);
    }

    /** The steps of `respond_to_message` after the LLM call, up to the
        typing simulation. */
    method FinishReply(responses: Option<Json>, rawSpeed: nat, u: UnitDraw, typingStart: real, typingEnd: real)
      returns (r: Result<string>)
      requires Valid()
      ensures r == ReplyFromResponses(responses, rawSpeed, u)
      ensures r.Ok? ==> Candidates(responses).Ok? && r.value in Candidates(responses).value
    {
      if sites.callsRecentHistory {
        return Err(RecentHistoryError);
      }
      var candidates := Candidates(responses);
      if candidates.Err? {
        return Err(candidates.error);
      }
      var response := PickReply(candidates.value);
      if response.Err? {
        return response;
      }
      // with the default speed range the typing simulation cannot fail
      var typing, sleeps, renewals := SimulateTyping(|response.value|, DefaultSpeedRange, rawSpeed, u,
                                                     typingStart, typingEnd);
      return response;
    }

    /** `respond_to_message`. The draws and clocks are parameters
        (`rawDelay`, `rawSpeed`, `u`, the typing clock readings, `now` for
        the context block and `timestamp` for the entry); `exchange` is the
        LLM's HTTP exchange, `logFails` whether writing the log row raises,
        and `sendFails` whether the channel send raises. Every failure is
        caught and ends the reply: before the history update nothing but the
        request log changes, and a failing send leaves the reply in the
        history unsent. A reply joins the history as the persona's own
        entry, so it is not a turn. */
    method RespondToMessage(m: Message, rawDelay: nat, guidance: string, now: string,
                            exchange: Request -> Result<HttpReply>, logFails: bool,
                            rawSpeed: nat, u: UnitDraw, typingStart: real, typingEnd: real,
                            timestamp: string, sendFails: bool)
      returns (r: Result<string>)
      requires Valid()
      modifies this, manager, requestLog
      ensures Valid()
      ensures inCooldown == old(inCooldown) && cooldownUntil == old(cooldownUntil)
      ensures character == old(character) && systemPrompt == old(systemPrompt)
      ensures dbInitialized == old(dbInitialized)
      ensures manager.conversationTurns == old(manager.conversationTurns)
      ensures var plan := old(ReplyPlan(m, rawDelay, guidance, now, exchange, rawSpeed, u));
              && (plan.Err? ==>
                    && r == plan && sent == old(sent)
                    && manager.history == old(manager.history)
                    && manager.channelName == old(manager.channelName))
              && (plan.Ok? ==>
                    && manager.channelName == (if ChannelLabel(m) != "" then Some(ChannelLabel(m))
                                               else old(manager.channelName))
                    && manager.history == Evict(old(manager.history)
                                                + [Entry(config.characterName, plan.value, timestamp,
                                                         true, manager.channelName)],
                                                manager.maxHistory)
                    && (sendFails ==> r.Err? && sent == old(sent))
                    && (!sendFails ==> r == plan && sent == old(sent) + [Sent(m.channelId, plan.value)]))
      ensures !old(Prepared(rawDelay)) || sites.passesCandidateCount ==>
                requestLog.records == old(requestLog.records)
      ensures old(Prepared(rawDelay)) && !sites.passesCandidateCount ==>
                if config.characterName != "" && old(dbInitialized) && !logFails then
                  && |requestLog.records| == |old(requestLog.records)| + 1
                  && requestLog.records[..|old(requestLog.records)|] == old(requestLog.records)
                  && requestLog.records[|old(requestLog.records)|].botName == config.characterName
                else requestLog.records == old(requestLog.records)
    {
      r := ComposeReply(m, rawDelay, guidance, now, exchange, logFails, rawSpeed, u, typingStart, typingEnd);
      if r.Err? {
        return;
      }
      r := Deliver(m, r.value, timestamp, sendFails);
    }

    /** The end of `respond_to_message`: the reply joins the history as the
        persona's own entry, then goes to the channel unless the send
        raises. */
    method Deliver(m: Message, reply: string, timestamp: string, sendFails: bool) returns (r: Result<string>)
      requires Valid()
      modifies this, manager
      ensures Valid()
      ensures inCooldown == old(inCooldown) && cooldownUntil == old(cooldownUntil)
      ensures character == old(character) && systemPrompt == old(systemPrompt)
      ensures dbInitialized == old(dbInitialized)
      ensures manager.conversationTurns == old(manager.conversationTurns)
      ensures manager.channelName == (if ChannelLabel(m) != "" then Some(ChannelLabel(m))
                                      else old(manager.channelName))
      ensures manager.history == Evict(old(manager.history)
                                       + [Entry(config.characterName, reply, timestamp, true, manager.channelName)],
                                       manager.maxHistory)
      ensures sendFails ==> r.Err? && sent == old(sent)
      ensures !sendFails ==> r == Ok(reply) && sent == old(sent) + [Sent(m.channelId, reply)]
    {
      manager.AddMessage(config.characterName, reply, Some(config.characterName),
                         Some(ChannelLabel(m)), timestamp);
      if sendFails {
        return Err("discord.HTTPException: the message could not be sent");
      }
      sent := sent + [Sent(m.channelId, reply)];
      r := Ok(reply);
    }

    /** `send_scheduled_message`: nothing is sent without a configured
        channel id or when the channel is not found. */
    method SendScheduledMessage(text: string, channelFound: bool)
      modifies this
      ensures config.channelId == 0 || !channelFound ==> sent == old(sent)
      ensures config.channelId != 0 && channelFound ==> sent == old(sent) + [Sent(config.channelId, text)]
      ensures inCooldown == old(inCooldown) && cooldownUntil == old(cooldownUntil)
      ensures character == old(character) && systemPrompt == old(systemPrompt)
      ensures dbInitialized == old(dbInitialized)
    {
      if config.channelId == 0 {
        return;
      }
      if !channelFound {
        return;
      }
      sent := sent + [Sent(config.channelId, text)];
    }

    /** `load_character_settings`: the record is looked up under the Notion
        name (`now`, `refreshedAt` and `query` drive the store's refresh) and
        replaced by the default record when the lookup finds nothing; the
        prompt is then formatted from it. As written the formatting call
        raises, and the handler falls back to the default record and the
        fallback prompt; `error` is the error it logs. */
    method LoadCharacterSettings(now: real, refreshedAt: real, query: Result<seq<Page>>)
      returns (error: Option<string>)
      modifies this, notion
      ensures error == if sites.passesBaseRole then Some(BaseRoleError) else None
      ensures notion.apiKey == old(notion.apiKey) && notion.databaseId == old(notion.databaseId)
      ensures notion.config == old(notion.config)
      ensures notion.AfterLookup(old(notion.characterCache), old(notion.lastRefreshTime), now, refreshedAt, query)
      ensures var (c, p) := Settings(sites, CacheGet(notion.characterCache, config.notionCharacterName),
                                     config.notionCharacterName, baseRole);
              character == Some(c) && systemPrompt == Some(p)
      ensures inCooldown == old(inCooldown) && cooldownUntil == old(cooldownUntil)
      ensures dbInitialized == old(dbInitialized) && sent == old(sent)
    {
      var found := notion.GetCharacter(config.notionCharacterName, now, refreshedAt, query);
      character := found;
      if !CharacterTruthy(character) {
        character := Some(DefaultCharacter(config.notionCharacterName));
      }
      if sites.passesBaseRole {
        // format_character_prompt(..., base_role=...) raises; the handler catches it
        character := Some(DefaultCharacter(config.notionCharacterName));
        systemPrompt := Some(FallbackSystemPrompt(config.notionCharacterName, baseRole));
        return Some(BaseRoleError);
      }
      systemPrompt := Some(FormatCharacterPrompt(character.value));
      error := None;
    }
  }

  /** The record and prompt `load_character_settings` leaves behind, given
      what the lookup found. */
  function Settings(sites: CallSites, found: Option<Character>, name: string, baseRole: Option<string>)
    : (r: (Character, string))
    ensures sites.passesBaseRole ==> "name" in r.0 && StartsWith(r.1, "You are " + ValueText(r.0["name"]) + ".")
    ensures CharacterTruthy(found) && !sites.passesBaseRole ==> r.0 == found.value
    ensures !CharacterTruthy(found) || sites.passesBaseRole ==> r.0 == DefaultCharacter(name)
  {
    if sites.passesBaseRole then
      var c := DefaultCharacter(name);
      assert ValueText(c["name"]) == name;
      (c, FallbackSystemPrompt(name, baseRole))
    else
      var c := if CharacterTruthy(found) then found.value else DefaultCharacter(name);
      (c, FormatCharacterPrompt(c))
  }

  /** As written, whatever the store holds, the persona ends up with the
      default record and the fallback prompt: a stored record never reaches
      the prompt. */
  lemma AsWrittenSettingsIgnoreRecord(found: Option<Character>, name: string, baseRole: Option<string>)
    ensures Settings(AsWritten, found, name, baseRole)
            == (DefaultCharacter(name), FallbackSystemPrompt(name, baseRole))
  {
  }

  /** A concrete case: the stored "Tama" record with a calm personality is
      dropped, and without a base role the prompt is the one-line default. */
  lemma AsWrittenDropsStoredPersonality()
    ensures var found: Character := map["name" := Str("Tama"), "personality" := Str("Calm")];
            Settings(AsWritten, Some(found), "Tama", None).0["personality"] != found["personality"]
  {
    var found: Character := map["name" := Str("Tama"), "personality" := Str("Calm")];
    AsWrittenSettingsIgnoreRecord(Some(found), "Tama", None);
    assert "Calm"[0] != "Friendly and helpful"[0];
  }

  /** Corrected, a stored record is kept and its own prompt is used: it names
      the character, contains every present setting and ends with the
      general instruction. */
  lemma CorrectedSettingsUseRecord(found: Option<Character>, name: string, baseRole: Option<string>)
    requires CharacterTruthy(found)
    ensures var (c, p) := Settings(Corrected, found, name, baseRole);
            && c == found.value
            && p == FormatCharacterPrompt(found.value)
            && EndsWith(p, GeneralInstruction)
            && ("name" in found.value ==> StartsWith(p, "You are " + ValueText(found.value["name"]) + "."))
  {
    FormatCharacterPromptShape(found.value);
  }

  /** As written, a reply whose model and prompt are settled always ends at
      the call with `n=3`: the LLM is never asked and nothing is sent. */
  lemma AsWrittenNeverReplies(p: Persona, m: Message, rawDelay: nat, guidance: string, now: string,
                              exchange: Request -> Result<HttpReply>, rawSpeed: nat, u: UnitDraw)
    requires p.sites == AsWritten
    ensures p.ReplyPlan(m, rawDelay, guidance, now, exchange, rawSpeed, u).Err?
    ensures p.Prepared(rawDelay) ==>
              p.ReplyPlan(m, rawDelay, guidance, now, exchange, rawSpeed, u) == Err(CandidateCountError)
  {
  }

  /** Even with the `n=3` argument dropped, the `get_recent_history` lookup
      raises after the LLM has answered, so no reply is sent. */
  lemma RecentHistoryLookupNeverReplies(p: Persona, m: Message, rawDelay: nat, guidance: string, now: string,
                                        exchange: Request -> Result<HttpReply>, rawSpeed: nat, u: UnitDraw)
    requires !p.sites.passesCandidateCount && p.sites.callsRecentHistory
    requires p.Prepared(rawDelay)
    ensures var model := ModelOf(p.character).value;
            var outcome := p.llm.Outcome(p.ReplyMessages(m, guidance, now), model, None, exchange);
            p.ReplyPlan(m, rawDelay, guidance, now, exchange, rawSpeed, u)
            == if outcome.Err? then Err(outcome.error) else Err(RecentHistoryError)
  {
  }

  /** Corrected, a single text reply from the LLM is what the persona sends,
      and among several texts the selector's first best is sent. */
  lemma CorrectedReplyIsSent(p: Persona, m: Message, rawDelay: nat, guidance: string, now: string,
                             exchange: Request -> Result<HttpReply>, rawSpeed: nat, u: UnitDraw, reply: Json)
    requires p.sites == Corrected && p.Prepared(rawDelay)
    requires p.llm.Outcome(p.ReplyMessages(m, guidance, now), ModelOf(p.character).value, None, exchange)
             == Ok(Some(reply))
    ensures reply.JStr? ==> p.ReplyPlan(m, rawDelay, guidance, now, exchange, rawSpeed, u) == Ok(reply.s)
    ensures var plan := p.ReplyPlan(m, rawDelay, guidance, now, exchange, rawSpeed, u);
            plan.Ok? ==> Candidates(Some(reply)).Ok? && plan.value in Candidates(Some(reply)).value
  {
    var candidates := Candidates(Some(reply));
    if candidates.Ok? {
      var choice := p.Choice(candidates.value);
      if choice.Ok? {
        assert TypingDuration(|choice.value|, DefaultSpeedRange, rawSpeed, u).Ok?;
      }
    }
  }
}
