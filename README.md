# AI Zoo Discord bots — a Dafny model of the conversation core

AI Zoo runs several Discord bots ("personas") in one channel. Each persona
has a character stored in a Notion database. It keeps a bounded conversation
buffer and answers through an LLM (OpenAI or Anthropic). It waits a random
delay and simulates typing before it sends. It cools down for a few minutes
after a fixed number of turns. A secondary persona answers only with a
configured probability. A one-shot sender posts a scheduled message.

This project models that core:

- the conversation buffer (`Conversation`);
- the utility-based reply selector (`Utility`);
- the Notion character store and its prompt formatting (`Notion`);
- character handling (`CharacterManager`);
- URL extraction and page summaries (`UrlContent`);
- `.env` reading and `${NAME}` substitution in configuration (`ConfigLoader`);
- the LLM request layer (`LlmService`);
- response pacing (`RandomDelay`);
- the secondary persona (`SecondaryBot`);
- the scheduled sender (`ScheduledMessage`);
- the message pipeline of a persona (`ConversationHandler`).

`Wrappers` holds the Option and Result types. `Text` holds the Python string
built-ins the code relies on.

The model follows the source's form:

- **Objects the code mutates are classes.** Their methods carry `modifies`
  clauses and state the whole new state: `ConversationManager`,
  `UtilityFunction`, `NotionService`, `LLMService` with its `RequestLog`,
  `Environment`, `ScheduledMessageSender` and the `Persona`.
- **Loops are methods with invariants.** Each is proved equal to a
  specification function, and the properties are proved about that function.
- **Pure helpers are functions and lemmas.**
- **Outside inputs are parameters.** Random draws become a raw natural (for
  `randint`) or a draw in [0, 1) (for `random()`). Clock readings, HTTP
  exchanges, Notion query results and Discord outcomes (channel found, send
  failed, log write failed) are parameters too.

Three call sites in the repository do not match the functions they call. The
`Persona` therefore carries a `CallSites` record:

- `AsWritten` reproduces the repository as it stands;
- `Corrected` is the evident intent.

Both are proved about; see "## Findings".

Where the repository's tests and the code disagree, the model follows the
code:

- **Character cache keys.** The cache is keyed only by the lower-cased name
  (`services/notion_service.py:96-102`). The repository's test
  (`tests/services/test_notion_service.py:483-487`) also expects a "compact"
  key without spaces or dots, such as `'dr.watson'`. The code adds no such
  key, so "Dr.Watson" does not find "Dr. Watson" (`Notion.NoCompactKey`).

The model also keeps these behaviours of the code as they stand:

- **Messages during a cooldown.** A message that arrives while the persona
  cools down is dropped before it is added to the history
  (`mixins/conversation_handler.py:146-147`). It is not recorded.
- **Engagement score.** It is capped above at 1 but not clamped below 0. A
  reply of 1500 characters or more scores below zero
  (`Utility.EngagementBounds`).
- **URL content.** It never reaches the history. The buffer has no
  `add_url_content` method, so the call raises, and the surrounding `except`
  catches it. `ProcessMessage` reports that error instead.

## Model

| member | source | states |
|---|---|---|
| Conversation.ConversationManager.constructor | ai-zoo-discord-bots/utils/conversation.py:10-23 | a new buffer is empty, has zero turns and no channel name, and keeps the given history and token bounds |
| Conversation.ConversationManager.AddMessage | ai-zoo-discord-bots/utils/conversation.py:25-61 | the channel name is replaced only by a non-empty one; the entry (marked as self exactly when the author is the bot) is appended and the history trimmed to the most recent max_history; with a positive bound the length never exceeds it; turns grow by one exactly for messages not from the bot |
| Conversation.EvictKeepsMostRecent | ai-zoo-discord-bots/utils/conversation.py:53-57 | eviction keeps exactly the last min(len, max_history) entries, in order |
| Conversation.EvictZeroKeepsAll | ai-zoo-discord-bots/utils/conversation.py:56-57 | with max_history 0 the trim never applies and the history is kept whole |
| Conversation.EvictThenAppend | ai-zoo-discord-bots/utils/conversation.py:53-57 | trimming after every append gives the same history as one trim of all entries appended at once |
| Conversation.AppendAllKeepsMostRecent | ai-zoo-discord-bots/utils/conversation.py:53-57 | a run of appends from a bounded history leaves exactly the most recent max_history entries of the whole run |
| Conversation.ConversationManager.GetRecentMessages | ai-zoo-discord-bots/utils/conversation.py:63-73 | the last `count` entries for a positive count, the whole history when it is shorter or when count is 0, and Python's negative-slice result otherwise |
| Conversation.ContextInfoNonEmpty | ai-zoo-discord-bots/utils/conversation.py:162-182 | the context block is never empty, so both renderers always include it |
| Conversation.ContextInfo | ai-zoo-discord-bots/utils/conversation.py:162-182 | the header, the time, the channel line only when the channel name is truthy, the turn count and the footer, joined by newlines; `ContextInfoNonEmpty` states it is never empty |
| Conversation.OpenAIEntryLabels | ai-zoo-discord-bots/utils/conversation.py:95-108 | role `assistant` exactly for self entries; a `Bot (author)` label exactly for other bots; otherwise the bare author name |
| Conversation.AnthropicEntryLabels | ai-zoo-discord-bots/utils/conversation.py:139-151 | label precedence `Assistant`, then `Bot (author)`, then `Human (author)`; every entry ends with its content and a blank line |
| Conversation.RenderersDifferOnHumans | ai-zoo-discord-bots/utils/conversation.py:102-108 | a human sender gets a `Human (...)` label from the Anthropic renderer but none from the OpenAI renderer |
| Conversation.ConversationManager.FormatForOpenAI | ai-zoo-discord-bots/utils/conversation.py:75-116 | the list built is the OpenAI rendering of the system prompt, the context block of the current channel and turns, and the whole history |
| Conversation.OpenAIMessagesLayout | ai-zoo-discord-bots/utils/conversation.py:75-116 | history length + 5 messages: system prompt, context block and history start, one rendered message per entry in order, then history end and format instructions |
| Conversation.ConversationManager.FormatForAnthropic | ai-zoo-discord-bots/utils/conversation.py:118-160 | the prompt is the header, the transcript of every entry in order and the closing parts; it starts with the system prompt and ends with the open `Assistant: ` cue |
| Conversation.AnthropicPromptShape | ai-zoo-discord-bots/utils/conversation.py:118-160 | every Anthropic prompt starts with the system prompt and a blank line and ends with `Assistant: ` |
| Conversation.ConversationManager.ResetConversationTurns | ai-zoo-discord-bots/utils/conversation.py:202-204 | turns become 0, so no positive limit calls for a cooldown; the history and channel are unchanged |
| Conversation.ConversationManager.ShouldCoolDown | ai-zoo-discord-bots/utils/conversation.py:206-216 | a cooldown is due exactly when the turn count has reached the limit; `ResetConversationTurns` states it is off again for every positive limit |
| Conversation.ConversationManager.ClearHistory | ai-zoo-discord-bots/utils/conversation.py:218-221 | the history and turns are cleared; the channel name and bounds are kept |
| Conversation.EstimateTokenCount | ai-zoo-discord-bots/utils/conversation.py:223-235 | the estimate is the length divided by four, rounded down |
| Utility.UtilityFunction.constructor | ai-zoo-discord-bots/mixins/utility_function.py:13-24 | the weights start at alpha = (1.0, 0.8, 0.6) and beta = (0.5, 0.3, 0.2) |
| Utility.Resize | ai-zoo-discord-bots/mixins/utility_function.py:41-49 | a vector of the wrong size is repeated cyclically to the weight size; one of the right size is kept |
| Utility.UtilityIsWeightedDifference | ai-zoo-discord-bots/mixins/utility_function.py:26-57 | with vectors of the weights' sizes, utility is alpha·scores − beta·costs |
| Utility.UtilityFunction.CalculateUtility | ai-zoo-discord-bots/mixins/utility_function.py:26-57 | resizes mismatched vectors and takes alpha·scores − beta·costs; under the default weights `DefaultUtilityBounds` bounds it by 2.4 and shows it negative for long replies, `DefaultUtilityExpanded` gives it slot by slot, and `UtilityIsWeightedDifference` states the formula at matching sizes |
| Utility.DefaultWeightsExample | ai-zoo-discord-bots/mixins/utility_function.py:26-57 | the default weights give utility 1.61 for scores (0.9, 0.5, 0.8) and costs (0.1, 0.2, 0.3) |
| Utility.EngagementBounds | ai-zoo-discord-bots/mixins/utility_function.py:73-79 | engagement is at most 1, non-negative up to 1000 characters and negative from 1500 characters |
| Utility.Engagement | ai-zoo-discord-bots/mixins/utility_function.py:73-79 | 0.7 × length score + 0.3 × question score, capped at 1; `EngagementBounds` states its range |
| Utility.HelpfulnessBounds | ai-zoo-discord-bots/mixins/utility_function.py:82-87 | helpfulness lies in [0, 1] |
| Utility.Helpfulness | ai-zoo-discord-bots/mixins/utility_function.py:82-87 | structure score (0.3 for a list marker) plus detail score (length / 800, at most 0.7), capped at 1; `HelpfulnessBounds` states its range |
| Utility.AdherenceBounds | ai-zoo-discord-bots/mixins/utility_function.py:90-97 | adherence lies in [0.7, 1] and is 1 once at least 30% of a non-empty keyword set occurs in the reply |
| Utility.Adherence | ai-zoo-discord-bots/mixins/utility_function.py:90-97 | 0.7 plus the matched-keyword share capped at 0.8, capped at 1; `AdherenceBounds` states its range |
| Utility.MatchedKeywordsBound | ai-zoo-discord-bots/mixins/utility_function.py:90-95 | the matched keywords are never more than the keywords |
| Utility.Evaluation | ai-zoo-discord-bots/mixins/utility_function.py:59-99 | one score per evaluation dimension |
| Utility.CostBounds | ai-zoo-discord-bots/mixins/utility_function.py:101-138 | time and risk costs lie in [0, 1], complexity in [0, 0.8]; the risk cost is 0 exactly when no risky topic occurs in the lower-cased reply |
| Utility.ResponseTimeCost | ai-zoo-discord-bots/mixins/utility_function.py:115-120 | length / 900 / 2, capped at 1; `CostBounds` states its range |
| Utility.ComplexityCost | ai-zoo-discord-bots/mixins/utility_function.py:123-128 | average sentence length / 50, capped at 0.8; `CostBounds` states its range |
| Utility.RiskCost | ai-zoo-discord-bots/mixins/utility_function.py:131-136 | 0.2 per risky topic in the lower-cased reply, capped at 1; `CostBounds` and `TopicHitsZero` state its range and when it is 0 |
| Utility.TopicHitsZero | ai-zoo-discord-bots/mixins/utility_function.py:131-136 | no topic is counted exactly when none occurs |
| Utility.Cost | ai-zoo-discord-bots/mixins/utility_function.py:101-138 | one cost per cost dimension |
| Utility.DefaultUtilityExpanded | ai-zoo-discord-bots/mixins/utility_function.py:13-57 | under the default weights, utility is the weighted sum of the three scores minus the weighted sum of the three costs |
| Utility.DefaultUtilityBounds | ai-zoo-discord-bots/mixins/utility_function.py:13-138 | under the default weights, utility is at most 2.4, and negative for replies of 2000 characters or more |
| Utility.FirstMaxIndex | ai-zoo-discord-bots/mixins/utility_function.py:153-168 | the index of the first greatest utility: nothing is greater, and everything before it is strictly smaller |
| Utility.FirstMaxScan | ai-zoo-discord-bots/mixins/utility_function.py:150-166 | the scan from minus infinity, replacing the best only on a strictly greater utility, ends at the first position of greatest utility |
| Utility.UtilityFunction.SelectOptimalResponse | ai-zoo-discord-bots/mixins/utility_function.py:140-168 | no candidates give ""; otherwise the candidate at the first position of greatest utility (ties keep the earlier one) |
| Utility.UtilityFunction.UpdateUtilityWeights | ai-zoo-discord-bots/mixins/utility_function.py:170-189 | a given vector replaces its weights only when its size matches; otherwise the weights are kept |
| Notion.NotionService.constructor | ai-zoo-discord-bots/services/notion_service.py:25-58 | the loaded configuration, or the fallback when loading failed; a missing or empty database id falls back to the configuration's; the cache starts empty and was never refreshed |
| Notion.ExtractPropertyValueCases | ai-zoo-discord-bots/services/notion_service.py:168-204 | title and rich text give their first item's plain text; select gives `Str` of its option's name when the option has one, else nothing; multi-select gives every option name present; checkbox and number give their raw value when present, else nothing; any other type gives nothing |
| Notion.ExtractPropertyValue | ai-zoo-discord-bots/services/notion_service.py:168-204 | one case per property type, each giving the value `ExtractPropertyValueCases` states for it (the text, the option name, the name list, the flag or the number), and nothing for other types |
| Notion.OptionNamesAreNames | ai-zoo-discord-bots/services/notion_service.py:193-195 | the multi-select list holds exactly the names the options carry |
| Notion.OptionNames | ai-zoo-discord-bots/services/notion_service.py:193-195 | the multi-select list is never longer than the options |
| Notion.ParseNotionPage | ai-zoo-discord-bots/services/notion_service.py:140-166 | a page yields a record exactly when it has a name; each field comes from its mapped property's extracted value, and only mapped settings appear |
| Notion.CharactersFromPages | ai-zoo-discord-bots/services/notion_service.py:131-138 | the records of the pages that have a name, in order; each has a name |
| Notion.PagesCharactersNamed | ai-zoo-discord-bots/services/notion_service.py:131-138 | every collected record has a name |
| Notion.CacheGet | ai-zoo-discord-bots/services/notion_service.py:78 | found exactly when the lower-cased name is a key, and then it is that entry |
| Notion.CacheOf | ai-zoo-discord-bots/services/notion_service.py:96-102 | the `{name.lower(): record}` map over the records, later records overwriting earlier ones, or the error a non-text name raises; `CacheOfContents` states its contents |
| Notion.CacheOfContents | ai-zoo-discord-bots/services/notion_service.py:96-102 | the cache is built exactly when no name is non-text; its keys are exactly the lower-cased names, each mapped to the last record with that key, whose own key it is |
| Notion.CacheLookupCaseInsensitive | ai-zoo-discord-bots/services/notion_service.py:78-102 | after a refresh, a lookup whose lower-cased name equals a record's lower-cased name finds a record with that key |
| Notion.NoCompactKey | ai-zoo-discord-bots/services/notion_service.py:96-102 | "Dr. Watson" is cached under "dr. watson" only, not under a compact "dr.watson" |
| Notion.NotionService.RefreshCharacterCache | ai-zoo-discord-bots/services/notion_service.py:80-105 | without an API key or database id, or when the query fails, nothing changes; otherwise the cache is rebuilt from the parsed pages and the refresh time recorded |
| Notion.NotionService.GetCharacter | ai-zoo-discord-bots/services/notion_service.py:60-105 | when more than the interval has passed, the cache and refresh time become those of a successful refresh (keys set, query answered, every name text) and stay as they were otherwise; when not, nothing changes; the result is the case-insensitive lookup in the resulting cache |
| Notion.FirstLookupRefreshes | ai-zoo-discord-bots/services/notion_service.py:57-75 | the first lookup after start-up is due for a refresh |
| Notion.RefreshDue | ai-zoo-discord-bots/services/notion_service.py:72-74 | a refresh is due when strictly more than the interval, in seconds, has passed since the last one; `FirstLookupRefreshes` states a fresh service refreshes |
| Notion.PromptParts | ai-zoo-discord-bots/services/notion_service.py:206-258 | the prompt opens with "You are N." when there is a name, includes the interests line when present, and ends with the general instruction |
| Notion.FormatCharacterPromptShape | ai-zoo-discord-bots/services/notion_service.py:206-258 | the joined prompt starts with "You are N.", ends with the general instruction, and contains every part it collected |
| Notion.FormatCharacterPrompt | ai-zoo-discord-bots/services/notion_service.py:206-258 | the present parts joined by blank lines; `FormatCharacterPromptShape` states its start, end and contents |
| Notion.ValueText | ai-zoo-discord-bots/services/notion_service.py:218-249 | a value as an f-string renders it: text as is, a list as `repr` items in brackets, booleans as True/False, numbers in decimal |
| Notion.EscapedPlain | ai-zoo-discord-bots/services/notion_service.py:218-249 | text with no backslash, quote or line control is its own `repr` body |
| Notion.ReprQuoting | ai-zoo-discord-bots/services/notion_service.py:218-249 | `repr` quotes plain text in single quotes, and text holding single quotes but no double quote in double quotes |
| Notion.ApostropheItemRepr | ai-zoo-discord-bots/services/notion_service.py:218-249 | the list `["it's"]` renders with double quotes around the item, as Python prints it |
| Notion.InterestsListJoined | ai-zoo-discord-bots/services/notion_service.py:239-245 | a list of interests is joined with ", " |
| CharacterManager.DefaultCharacter | ai-zoo-discord-bots/mixins/character_manager.py:20-28 | the default record has exactly name, personality, speaking style, language and model (gpt-4) |
| CharacterManager.FallbackSystemPrompt | ai-zoo-discord-bots/mixins/character_manager.py:44-58 | the fallback prompt starts with "You are N."; it ends with the base role when there is one, and otherwise asks to be friendly and helpful |
| CharacterManager.AdjustSystemPromptForSender | ai-zoo-discord-bots/mixins/character_manager.py:60-80 | the guidance is appended exactly when a bot name occurs in the lower-cased sender name |
| CharacterManager.SubstringCheckIsWider | ai-zoo-discord-bots/mixins/character_manager.py:71-80 | the substring test also treats "Claude-Fan" as a bot, although that is not a bot name |
| CharacterManager.ExactBotNameLooksLikeBot | ai-zoo-discord-bots/mixins/character_manager.py:71-80 | every exact bot name passes the substring test |
| CharacterManager.IntroductionParts | ai-zoo-discord-bots/mixins/character_manager.py:82-127 | the greeting with the name comes first, the invitation last, and the additional line just before it when non-empty |
| CharacterManager.IntroductionShape | ai-zoo-discord-bots/mixins/character_manager.py:82-127 | the message starts with the greeting, ends with the invitation, and contains the additional line when non-empty; it is just those two lines without character or additional line |
| CharacterManager.IntroductionMessage | ai-zoo-discord-bots/mixins/character_manager.py:82-127 | the introduction parts joined by newlines; `IntroductionShape` states its start, end and contents |
| CharacterManager.ExtractCharacterKeywords | ai-zoo-discord-bots/mixins/character_manager.py:139-167 | no character gives no keywords |
| CharacterManager.KeywordsAreWords | ai-zoo-discord-bots/mixins/character_manager.py:139-167 | the keywords are exactly the words of personality and speaking style and the interests (list items, or the words of text interests), in both directions; a successful extraction means each present setting had a splittable value |
| CharacterManager.PersonalityKeywordsAreWords | ai-zoo-discord-bots/mixins/character_manager.py:150-152 | each word from the personality is non-empty and holds no whitespace |
| CharacterManager.ListPersonalityRaises | ai-zoo-discord-bots/mixins/character_manager.py:150-152 | a personality stored as a list has no split(), so extraction fails |
| UrlContent.MatchIsUrl | ai-zoo-discord-bots/utils/url_content_fetcher.py:34 | every match of the pattern is a scheme followed by at least one non-space character |
| UrlContent.UrlsFromAreUrls | ai-zoo-discord-bots/utils/url_content_fetcher.py:63-73 | every URL found from a position on matches the pattern |
| UrlContent.ExtractedAreUrls | ai-zoo-discord-bots/utils/url_content_fetcher.py:63-73 | every extracted URL matches the pattern |
| UrlContent.ExtractSingleUrl | ai-zoo-discord-bots/utils/url_content_fetcher.py:63-73 | a message that is exactly one URL yields that URL |
| UrlContent.NoSchemeNoUrls | ai-zoo-discord-bots/utils/url_content_fetcher.py:34 | text without "://" yields no URLs |
| UrlContent.ExtractUrls | ai-zoo-discord-bots/utils/url_content_fetcher.py:63-73 | `findall` from the start; soundness by `ExtractedAreUrls`, completeness and order by `ExtractUrlsComplete` |
| UrlContent.MatchEndsAtSpace | ai-zoo-discord-bots/utils/url_content_fetcher.py:34 | a match stops at whitespace or at the end of the text |
| UrlContent.MaximalUrlMatches | ai-zoo-discord-bots/utils/url_content_fetcher.py:34 | a URL that runs up to whitespace or the end is matched in full |
| UrlContent.MatchAtIsMaximalUrl | ai-zoo-discord-bots/utils/url_content_fetcher.py:34 | a match at i ends at e exactly when s[i..e] is a URL followed by whitespace or the end: the greedy match, in both directions |
| UrlContent.UrlsFromFirstMatch | ai-zoo-discord-bots/utils/url_content_fetcher.py:63-73 | the scan yields the first match at or after its position first, then continues after that match: no match is skipped |
| UrlContent.UrlsFromEmpty | ai-zoo-discord-bots/utils/url_content_fetcher.py:63-73 | the scan finds nothing exactly when no match starts at or after its position |
| UrlContent.ExtractUrlsComplete | ai-zoo-discord-bots/utils/url_content_fetcher.py:63-73 | the first extracted URL is the leftmost match, and a message yields no URL exactly when nothing in it matches |
| UrlContent.IsDynamicContentUrl | ai-zoo-discord-bots/utils/url_content_fetcher.py:37-61 | some listed token occurs in the lower-cased URL |
| UrlContent.DynamicContentIgnoresCase | ai-zoo-discord-bots/utils/url_content_fetcher.py:51-61 | a URL and its lower-cased form are judged alike |
| UrlContent.NotionPageIsDynamic | ai-zoo-discord-bots/utils/url_content_fetcher.py:37-61 | a Notion page URL is dynamic whatever the case of its host |
| UrlContent.CollapseSpaces | ai-zoo-discord-bots/utils/url_content_fetcher.py:107 | every whitespace run becomes exactly one space |
| UrlContent.TruncateText | ai-zoo-discord-bots/utils/url_content_fetcher.py:109-110 | text within the limit is unchanged; longer text is cut to the limit plus "..." |
| UrlContent.ReplaceTags | ai-zoo-discord-bots/utils/url_content_fetcher.py:104 | each `<[^>]+>` tag, left to right, becomes one space |
| UrlContent.ReplaceTagsKeepsPlainText | ai-zoo-discord-bots/utils/url_content_fetcher.py:104 | text without '<' is kept as it is |
| UrlContent.ReplaceTagsShrinks | ai-zoo-discord-bots/utils/url_content_fetcher.py:104 | the result is never longer than the HTML, and a lone tag becomes one space |
| UrlContent.ExtractTextFromHtml | ai-zoo-discord-bots/utils/url_content_fetcher.py:102-111 | the extracted text is at most 1003 characters |
| UrlContent.ExtractedTextIsCollapsed | ai-zoo-discord-bots/utils/url_content_fetcher.py:105-107 | untruncated extracted text has no leading or trailing whitespace and no two whitespace characters in a row |
| UrlContent.LastSegment | ai-zoo-discord-bots/utils/url_content_fetcher.py:224 | the last path segment holds no '/' and ends the URL |
| UrlContent.FetchOverHttp | ai-zoo-discord-bots/utils/url_content_fetcher.py:189-255 | a non-200 status gives no title and the status message; a read body gives a title; a failed read of a known type gives no title; kept text is within the limit plus "..."; non-HTML titles are the last segment or the type's default |
| UrlContent.FetchUrlContent | ai-zoo-discord-bots/utils/url_content_fetcher.py:158-255 | the browser result for a dynamic URL when it rendered HTML, otherwise the plain request; `FetchUrlContentRoutes` states the routing |
| UrlContent.FetchUrlContentRoutes | ai-zoo-discord-bots/utils/url_content_fetcher.py:170-183 | a non-dynamic or unrendered page goes to the plain request; rendered HTML gives a title and its truncated extracted text; the browser's error text is passed on without a title |
| UrlContent.UrlBlock | ai-zoo-discord-bots/utils/url_content_fetcher.py:280-289 | each block starts with "URL: " and the URL, whatever the fetch returned or raised |
| UrlContent.UrlBlocks | ai-zoo-discord-bots/utils/url_content_fetcher.py:279-289 | one block per URL, in order |
| UrlContent.JoinedBlocksNameEveryUrl | ai-zoo-discord-bots/utils/url_content_fetcher.py:291-293 | the joined result names every processed URL |
| UrlContent.ProcessMessageUrls | ai-zoo-discord-bots/utils/url_content_fetcher.py:257-295 | None without URLs; otherwise the blocks of the first max_urls URLs joined by a blank line, never more blocks than max_urls |
| ConfigLoader.GetEnv | ai-zoo-discord-bots/utils/config_loader.py:48-65 | the set value, else the default; it raises exactly when neither exists |
| ConfigLoader.ReferenceName | ai-zoo-discord-bots/utils/config_loader.py:109-110 | the name is what lies between `${` and `}` |
| ConfigLoader.Process | ai-zoo-discord-bots/utils/config_loader.py:96-117 | objects and lists are processed item by item, a `${NAME}` string is replaced by its variable, anything else is kept, and an unset variable raises; `ProcessOkIffResolvable`, `ProcessIdempotent` and the other Process lemmas state its meaning |
| ConfigLoader.ProcessItems | ai-zoo-discord-bots/utils/config_loader.py:111-117 | processing a list keeps its length |
| ConfigLoader.ProcessFields | ai-zoo-discord-bots/utils/config_loader.py:104-110 | processing an object keeps its keys, in order |
| ConfigLoader.ProcessOkIffResolvable | ai-zoo-discord-bots/utils/config_loader.py:96-117 | processing succeeds exactly when every reference it reaches names a set variable |
| ConfigLoader.ProcessWithoutReferences | ai-zoo-discord-bots/utils/config_loader.py:96-117 | a configuration without references is left unchanged |
| ConfigLoader.ProcessRemovesReferences | ai-zoo-discord-bots/utils/config_loader.py:96-117 | when no variable's value is itself a reference, no reference is left after processing |
| ConfigLoader.ProcessIdempotent | ai-zoo-discord-bots/utils/config_loader.py:96-117 | processing a processed configuration changes nothing more |
| ConfigLoader.ReferenceReplaced | ai-zoo-discord-bots/utils/config_loader.py:115-117 | a `${NAME}` item becomes the value of NAME |
| ConfigLoader.FirstEquals | ai-zoo-discord-bots/utils/config_loader.py:39 | the line is split at its first '=' |
| ConfigLoader.ParseEnvLine | ai-zoo-discord-bots/utils/config_loader.py:34-40 | one stripped line: skipped, an assignment split at the first '=', or the unpacking error; `ParseEnvLineMeaning` states the cases |
| ConfigLoader.ParseEnvLineMeaning | ai-zoo-discord-bots/utils/config_loader.py:35-40 | blank and comment lines are skipped; other lines split at the first '=' into a non-empty key and the rest; a line without '=' or with an empty key raises |
| ConfigLoader.ParseEnvLines | ai-zoo-discord-bots/utils/config_loader.py:34-40 | each line is parsed on its own, in order |
| ConfigLoader.ApplyStep | ai-zoo-discord-bots/utils/config_loader.py:34-43 | a line is skipped, assigned, or stops the reading |
| ConfigLoader.ApplyLastWins | ai-zoo-discord-bots/utils/config_loader.py:40-43 | a later assignment of a key overrides earlier ones |
| ConfigLoader.ApplyUnassigned | ai-zoo-discord-bots/utils/config_loader.py:40-43 | a key no line assigns keeps its old value or stays unset |
| ConfigLoader.Environment.constructor | ai-zoo-discord-bots/utils/config_loader.py:62 | the environment starts with the given variables |
| ConfigLoader.Environment.ReadLines | ai-zoo-discord-bots/utils/config_loader.py:33-45 | the environment gains every assignment read before a malformed line; the call succeeds exactly when no line is malformed, and then returns those assignments |
| ConfigLoader.Environment.LoadEnvVars | ai-zoo-discord-bots/utils/config_loader.py:18-45 | no file (or an empty path) gives an empty result and changes nothing; otherwise the lines are read as above |
| LlmService.LLMService.constructor | ai-zoo-discord-bots/services/llm_service.py:26-44 | keeps both API keys and the token limit (500 when unset) |
| LlmService.OpenAIRequest | ai-zoo-discord-bots/services/llm_service.py:138-173 | chat-completions endpoint, bearer authorization, and the model, messages, token limit, temperature 0.7 and top_p 1.0 |
| LlmService.LegacyPrompt | ai-zoo-discord-bots/services/llm_service.py:225 | the prompt wrapped in the Human/Assistant turns, 21 characters longer |
| LlmService.AnthropicRequest | ai-zoo-discord-bots/services/llm_service.py:185-239 | claude-3 models use the messages endpoint and others the legacy complete endpoint with the wrapped prompt; the API key and version headers are always sent |
| LlmService.SelectRequest | ai-zoo-discord-bots/services/llm_service.py:76-93 | gpt models get the OpenAI request exactly when the OpenAI key is truthy, claude models the Anthropic request exactly when the Anthropic key is truthy, each missing key raises its own error, and any other model raises "Unsupported model"; a request goes to the OpenAI endpoint exactly for gpt models |
| LlmService.PrefixesExclusive | ai-zoo-discord-bots/services/llm_service.py:80-90 | no model name selects both providers |
| LlmService.Lookup | ai-zoo-discord-bots/services/llm_service.py:183 | a key lookup succeeds only on an object holding that key |
| LlmService.LastField | ai-zoo-discord-bots/services/llm_service.py:183 | the lookup fails exactly when no field has the key |
| LlmService.First | ai-zoo-discord-bots/services/llm_service.py:183 | indexing 0 succeeds exactly on a non-empty list and gives its first item |
| LlmService.ReplyContent | ai-zoo-discord-bots/services/llm_service.py:175-178 | a non-200 status raises the provider's API error |
| LlmService.ReplyContentReadsLayout | ai-zoo-discord-bots/services/llm_service.py:180-254 | for every model with the provider's prefix and status 200, a body whose path `choices[0].message.content`, `content[0].text` or `completion` leads to x yields x, whatever fields and items surround it; a legacy body yields content exactly when it has a `completion` field; an undecodable body raises |
| LlmService.RequestLog.constructor | ai-zoo-discord-bots/services/database.py:95-145 | the request log starts empty |
| LlmService.LLMService.GenerateResponse | ai-zoo-discord-bots/services/llm_service.py:46-136 | the result is the request's outcome, and a returned reply is truthy; exactly one log row is appended when a bot name is given, logging is not skipped and the write succeeds, carrying the model, the messages, the reply (or "" when there is none), the bot name and the error |
| LlmService.LLMService.Outcome | ai-zoo-discord-bots/services/llm_service.py:76-136 | request selection, then the exchange, then the reply content, with None for a falsy reply; `UnsupportedModelRaises` and `EmptyReplyIsNone` state two of its paths |
| LlmService.UnsupportedModelRaises | ai-zoo-discord-bots/services/llm_service.py:90-93 | a model that is neither gpt nor claude raises "Unsupported model" |
| LlmService.EmptyReplyIsNone | ai-zoo-discord-bots/services/llm_service.py:135-136 | an empty reply makes the call return None |
| RandomDelay.RandInt | ai-zoo-discord-bots/utils/random_delay.py:20 | a draw lies in the closed range, and an empty range raises |
| RandomDelay.RandIntReachesEveryValue | ai-zoo-discord-bots/utils/random_delay.py:20 | every value of the range is drawn for some raw draw |
| RandomDelay.Uniform | ai-zoo-discord-bots/utils/random_delay.py:43 | uniform(a, b) lies in [a, b) |
| RandomDelay.DelaySeconds | ai-zoo-discord-bots/utils/random_delay.py:12-21 | the delay lies between the bounds, and an inverted range raises |
| RandomDelay.TypingDuration | ai-zoo-discord-bots/utils/random_delay.py:23-48 | the drawn speed lies in the range and is not 0; the duration lies within 0.8 and 1.2 times length·60/speed; a range not containing 0 never fails |
| RandomDelay.ChunksIsCeiling | ai-zoo-discord-bots/utils/random_delay.py:74-81 | the typing loop makes ceil(duration / 9.5) waits |
| RandomDelay.SimulateTyping | ai-zoo-discord-bots/utils/random_delay.py:50-88 | the waits sum to the duration, each in (0, 9.5], one fewer renewal than waits; the measured clock difference and the speed are returned |
| SecondaryBot.ResponseProbability | ai-zoo-discord-bots/bots/secondary_bot.py:42 | 0.7 unless the environment sets it |
| SecondaryBot.ShouldRespond | ai-zoo-discord-bots/bots/secondary_bot.py:44-58 | answers exactly when the draw is at most the probability, so always at 1 or more and never below 0 |
| SecondaryBot.AdditionalIntroductionInfo | ai-zoo-discord-bots/bots/secondary_bot.py:60-67 | the line is "応答確率: " + str(k) + "%" where k is p·100 truncated toward zero (k ≤ 100p < k+1 for p ≥ 0, k−1 < 100p ≤ k below 0) |
| Text.Truncate | ai-zoo-discord-bots/bots/secondary_bot.py:67 | `int(x)` truncates toward zero: r ≤ x < r+1 for x ≥ 0, and r−1 < x ≤ r below 0 |
| SecondaryBot.DefaultIntroductionInfo | ai-zoo-discord-bots/bots/secondary_bot.py:42-67 | with the default probability the line reads "応答確率: 70%" |
| ScheduledMessage.PartOfDay | ai-zoo-discord-bots/bots/scheduled_message.py:107-114 | morning 5-11, afternoon 12-17, evening 18-23, night 0-4, each an if-and-only-if |
| ScheduledMessage.MessagesFor | ai-zoo-discord-bots/bots/scheduled_message.py:67-100 | five messages for each part of the day |
| ScheduledMessage.GetRandomMessage | ai-zoo-discord-bots/bots/scheduled_message.py:60-117 | the message is one of the current part of the day |
| ScheduledMessage.ScheduledText | ai-zoo-discord-bots/bots/scheduled_message.py:53 | the command-line words joined by spaces when given, otherwise a message for the part of the day |
| ScheduledMessage.ScheduledMessageSender.constructor | ai-zoo-discord-bots/bots/scheduled_message.py:26-37 | keeps the channel id and has sent nothing |
| ScheduledMessage.ScheduledMessageSender.SendMessage | ai-zoo-discord-bots/bots/scheduled_message.py:44-58 | the text is sent to the channel exactly when the channel exists and the send succeeds |
| ConversationHandler.ConfigFor | ai-zoo-discord-bots/core/config.py:13-28 | the character name is also the Notion name; each of the channel id, the two delays and the turn limit takes the environment value when it is set, and otherwise the defaults 0, 5, 15 and 10 (`DefaultConfig`) |
| ConversationHandler.DefaultConfig | ai-zoo-discord-bots/core/config.py:21-28 | with nothing set: every channel, a 5 to 15 second delay and a cooldown after 10 turns |
| ConversationHandler.ShouldRespondToMessage | ai-zoo-discord-bots/mixins/conversation_handler.py:195-206 | the base persona always answers; the secondary one answers exactly when its draw is at most its probability |
| ConversationHandler.ProbabilityExtremes | ai-zoo-discord-bots/bots/secondary_bot.py:44-58 | probability 1 or more acts like the base persona; below 0 it never answers |
| ConversationHandler.ModelOf | ai-zoo-discord-bots/mixins/conversation_handler.py:40 | gpt-4 without a character or a model setting; otherwise the model setting, which must be text |
| ConversationHandler.DefaultCharacterUsesOpenAI | ai-zoo-discord-bots/mixins/character_manager.py:20-28 | the default character answers through gpt-4 and so through OpenAI |
| ConversationHandler.PromptFor | ai-zoo-discord-bots/mixins/conversation_handler.py:47-50 | a message list exactly for gpt models (the OpenAI rendering); otherwise the Anthropic prompt, which claude models always get |
| ConversationHandler.Candidates | ai-zoo-discord-bots/mixins/conversation_handler.py:73-77 | a text reply is the only candidate; no reply is an error; a list reply succeeds exactly when it is non-empty and all text, and its candidates are then its texts in order |
| ConversationHandler.UrlBlocksTruthy | ai-zoo-discord-bots/mixins/conversation_handler.py:158-173 | a message with URLs always gives non-empty URL content |
| ConversationHandler.Persona.constructor | ai-zoo-discord-bots/core/bot.py:31-88 | a new persona has a fresh buffer of 10 entries, default weights and an empty request log, no character, prompt or cooldown, and no database yet |
| ConversationHandler.Persona.DatabaseInitialized | ai-zoo-discord-bots/core/bot.py:90-110 | records whether the database came up; nothing else changes |
| ConversationHandler.Persona.ProcessMessage | ai-zoo-discord-bots/mixins/conversation_handler.py:123-192 | own, other-channel and command messages are skipped and messages during a cooldown dropped, changing nothing; others are appended to the buffer (the URL step always fails when URLs are present); at the turn limit a 1 to 3 minute cooldown starts and turns reset; otherwise the persona answers as its hook decides |
| ConversationHandler.Persona.ResetCooldownAfter | ai-zoo-discord-bots/mixins/conversation_handler.py:208-218 | the cooldown ends; nothing else changes |
| ConversationHandler.Persona.Choice | ai-zoo-discord-bots/mixins/conversation_handler.py:79-86 | a single candidate is used as is; several go to the utility selector and give the first best candidate, failing when keyword extraction fails; the choice is always a candidate |
| ConversationHandler.Persona.ReplyMessages | ai-zoo-discord-bots/mixins/conversation_handler.py:40-50 | a claude model gets a single prompt |
| ConversationHandler.Persona.ReplyPlan | ai-zoo-discord-bots/mixins/conversation_handler.py:36-89 | the delay, model, prompt, LLM call and reply steps from the state before the call; `ComposeReply` and `RespondToMessage` are proved to follow it |
| ConversationHandler.Persona.PrepareMessages | ai-zoo-discord-bots/mixins/conversation_handler.py:43-50 | the messages are the rendering of the adjusted prompt, context and history for the model |
| ConversationHandler.Persona.PickReply | ai-zoo-discord-bots/mixins/conversation_handler.py:79-86 | the picked reply is the choice above |
| ConversationHandler.Persona.ComposeReply | ai-zoo-discord-bots/mixins/conversation_handler.py:36-89 | the reply follows the pipeline delay, model, prompt, LLM call, candidates, choice, typing; one log row with the persona's name is appended exactly when the LLM is called with a name, a database and a successful write |
| ConversationHandler.Persona.FinishReply | ai-zoo-discord-bots/mixins/conversation_handler.py:69-89 | the steps after the LLM call follow the pipeline, and a reply is always one of the candidates |
| ConversationHandler.Persona.Deliver | ai-zoo-discord-bots/mixins/conversation_handler.py:94-108 | the reply joins the history as the persona's own entry without counting a turn, and is sent to the message's channel unless the send fails |
| ConversationHandler.Persona.RespondToMessage | ai-zoo-discord-bots/mixins/conversation_handler.py:25-121 | a failed pipeline changes neither history nor sent messages; a reply is added to the history as the persona's own entry and sent to the channel unless the send fails; turns are unchanged |
| ConversationHandler.Persona.SendScheduledMessage | ai-zoo-discord-bots/mixins/conversation_handler.py:220-237 | sends the text only with a configured and existing channel |
| ConversationHandler.Persona.LoadCharacterSettings | ai-zoo-discord-bots/mixins/character_manager.py:12-58 | the character and prompt are the settings for the record found in the resulting cache; the cache and refresh time change exactly as a due, successful refresh changes them; the as-written call reports its TypeError; the Notion keys and configuration are unchanged |
| ConversationHandler.Settings | ai-zoo-discord-bots/mixins/character_manager.py:18-58 | as written, the default character with a "You are N." fallback prompt; corrected, the stored record when there is one, else the default |
| ConversationHandler.AsWrittenSettingsIgnoreRecord | ai-zoo-discord-bots/mixins/character_manager.py:31-58 | as written, every load ends in the default character and the fallback prompt, whatever Notion holds |
| ConversationHandler.AsWrittenDropsStoredPersonality | ai-zoo-discord-bots/mixins/character_manager.py:31-58 | a stored "Calm" personality is replaced by the default one |
| ConversationHandler.CorrectedSettingsUseRecord | ai-zoo-discord-bots/mixins/character_manager.py:18-34 | corrected, the stored record is used and formatted into a prompt that starts with its name and ends with the general instruction |
| ConversationHandler.AsWrittenNeverReplies | ai-zoo-discord-bots/mixins/conversation_handler.py:55-61 | as written, no reply is ever produced; once prepared, the error is the unexpected keyword `n` |
| ConversationHandler.RecentHistoryLookupNeverReplies | ai-zoo-discord-bots/mixins/conversation_handler.py:69 | with `n` removed, the missing `get_recent_history` still stops every successful LLM call |
| ConversationHandler.CorrectedReplyIsSent | ai-zoo-discord-bots/mixins/conversation_handler.py:55-89 | corrected, a text reply from the LLM becomes the reply, and any reply is one of the candidates |

## Left out

- Discord itself: the client, `on_ready`, `on_message`, `process_commands`, commands, the introduction send and the start-up of each bot. They are I/O and event wiring. The model takes their outcomes (channel found, send failed) as parameters.
- Concurrency: `asyncio.create_task` and the interleaving of `on_ready` with messages. `ProcessMessage` returns `Answer`, and `RespondToMessage` is a separate call. `ResetCooldownAfter` omits its sleep and ends the cooldown directly.
- ConversationHandler.Persona.RespondToMessage: a system prompt that was never loaded fails at the prompt step. In the source, a human sender would go on with `None` as the prompt.
- ConversationHandler.Candidates: a reply that is neither text nor a list of texts is an error. The source would send its `str()` form.
- ConversationHandler.Persona.SendScheduledMessage: errors from the send are not modelled. The source lets them propagate.
- ConversationHandler.Persona.ProcessMessage: a channel that has the `name` attribute set to None is not modelled. The model uses a name, or "DM" when the attribute is missing.
- HTTP, Notion queries, Playwright and file reads: their results are parameters. The request log's database write is a success flag.
- BeautifulSoup's parsing, Playwright's rendering and the HTML `<title>` regex: the found title is a parameter. The text is extracted only by the fallback path (tag removal and whitespace collapsing).
- numpy: vectors are sequences of reals, floats are exact reals, and `np.resize` is a cyclic repeat.
- `str.lower()` is modelled on ASCII letters only.
- LlmService.Lookup, LlmService.LastField, LlmService.First: their error texts ("KeyError: choices", "IndexError: list index out of range") are the model's own wording. Python logs `str(e)` (`'choices'`, `list index out of range`, or a TypeError text when the body is not an object). Only whether a reply is logged or skipped is modelled faithfully.
- Notion numbers are integers. Null property values are left out.
- Environment strings that the source converts with `int()` or `float()` (`MAX_TOKEN_LIMIT`, `RESPONSE_PROBABILITY` and the configuration integers) arrive already converted. Their parse errors are left out.
- SecondaryBot.AdditionalIntroductionInfo: `int(p * 100)` is computed on exact reals, not on binary floats.
- Notion.ValueText: `repr` of a list item escapes only backslashes, the chosen quote and the newline, carriage-return and tab controls. Python also writes other non-printable characters as `\x`, `\u` or `\U` escapes; the model keeps them as they are.
- ConfigLoader: the in-place mutation of the JSON configuration is modelled on values, returning the new configuration. `os.environ` writes are the `Environment` class.
- LlmService.SelectRequest: a claude model given a message list is excluded by `requires`. The source's anthropic call is annotated to take a string prompt.
- Utility.UtilityFunction.SelectOptimalResponse: the utilities are computed for all candidates before the scan rather than inside it. They are pure, so the chosen reply is the same.
- The unused `context` argument of the utility estimators is left out.
- Logging and timing measurements are left out.
- Utility.UtilityFunction: the `Valid()` invariant (weights of the dimensions' sizes) is the model's own. The source does not check it.
- Notion.NotionService.GetCharacter: the Notion query result is a parameter, not performed.
- ScheduledMessage.MessagesFor: the five message tables are not proved pairwise disjoint; only their size and the choice among them are stated.

## Findings

| source | as written | input that shows it | evidently intended | confidence | as-written member | corrected member |
|---|---|---|---|---|---|---|
| ai-zoo-discord-bots/mixins/conversation_handler.py:55-61 | `generate_response` is called with `n=3`, a keyword it does not accept | any message that reaches the LLM call, e.g. a human "hello" with the default character | call without `n` (one candidate) | not executed | ConversationHandler.AsWrittenNeverReplies | ConversationHandler.CorrectedReplyIsSent |
| ai-zoo-discord-bots/mixins/conversation_handler.py:69 | calls `get_recent_history`, which the conversation buffer does not define | any message whose LLM call succeeds | `get_recent_messages(5)` | not executed | ConversationHandler.RecentHistoryLookupNeverReplies | ConversationHandler.CorrectedReplyIsSent |
| ai-zoo-discord-bots/mixins/character_manager.py:31-34 | `format_character_prompt` is called with `base_role=`, a keyword it does not accept | the Notion record {name: "Tama", personality: "Calm"} | `format_character_prompt(character)` | not executed | ConversationHandler.AsWrittenSettingsIgnoreRecord | ConversationHandler.CorrectedSettingsUseRecord |
