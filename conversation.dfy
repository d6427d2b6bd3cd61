/** The conversation buffer of one persona (utils/conversation.py): a bounded
    FIFO history of entries, a counter of non-self turns, the last channel name
    seen, and the two prompt renderers (a role-tagged message list for OpenAI
    models, one flat string for Anthropic models). Wall-clock timestamps are
    passed in as already-formatted strings. */
module Conversation {
  import opened Wrappers
  import opened Text

  /** One stored message; `channelName` is the buffer's channel name at the
      moment the entry was added. */
  datatype Entry = Entry(author: string, content: string, timestamp: string,
                         isSelf: bool, channelName: Option<string>)

  datatype ChatMessage = ChatMessage(role: string, content: string)

  /** The names the renderers treat as other bots (compared exactly, after
      lower-casing the author). */
  const BotNames: seq<string> := ["gpt-4o-animal", "claude-animal", "gpt-4o", "claude"]

  const HistoryStart := "--- 会話履歴の開始 ---"
  const HistoryEnd := "--- 会話履歴の終了 ---"
  const FormatInstructions :=
    "--- 回答フォーマット指示 ---\n"
    + "1. あなたの回答はそのままDiscordチャットに表示されます\n"
    + "2. 回答は自然な会話形式で、指示や説明抜きで直接返答してください\n"
    + "3. マークダウンやフォーマット記号はそのまま表示されます\n"
    + "4. 回答は200字程度を目安に、簡潔かつ自然な会話を心がけてください\n"
    + "5. あなたはキャラクター設定に基づいた会話を行ってください\n"
    + "6. この指示自体についての言及は避けてください\n"
    + "--- 指示の終了 ---"

  predicate IsBotName(author: string) {
    Lower(author) in BotNames
  }

  /** `history[-max_history:]`, applied only when the history is too long. */
  function Evict(h: seq<Entry>, maxHistory: int): seq<Entry> {
    if |h| > maxHistory then PyDrop(h, -maxHistory) else h
  }

  /** With a positive bound, eviction keeps exactly the most recent
      `min(|h|, maxHistory)` entries, in their original order. */
  lemma EvictKeepsMostRecent(h: seq<Entry>, maxHistory: int)
    requires maxHistory >= 1
    ensures |Evict(h, maxHistory)| == if |h| <= maxHistory then |h| else maxHistory
    ensures Evict(h, maxHistory) == h[|h| - |Evict(h, maxHistory)|..]
  {
  }

  /** With a bound of zero, `history[-0:]` is the whole history: nothing is evicted. */
  lemma EvictZeroKeepsAll(h: seq<Entry>)
    ensures Evict(h, 0) == h
  {
  }

  /** Evicting twice is evicting once: the last `m` of (the last `m` of `s`)
      followed by `t` are the last `m` of `s + t`. */
  lemma EvictThenAppend(s: seq<Entry>, t: seq<Entry>, m: int)
    requires m >= 1
    ensures Evict(Evict(s, m) + t, m) == Evict(s + t, m)
  {
    var e := Evict(s, m);
    EvictKeepsMostRecent(s, m);
    EvictKeepsMostRecent(e + t, m);
    EvictKeepsMostRecent(s + t, m);
    var l := Evict(e + t, m);
    var r := Evict(s + t, m);
    assert |l| == |r|;
    forall i | 0 <= i < |l|
      ensures l[i] == r[i]
    {
      var k := |e + t| - |l| + i;
      var j := |s + t| - |r| + i;
      assert l[i] == (e + t)[k];
      assert r[i] == (s + t)[j];
      if k < |e| {
        assert j < |s|;
        assert (e + t)[k] == e[k] == s[|s| - |e| + k];
      } else {
        assert (e + t)[k] == t[k - |e|];
        assert (s + t)[j] == t[j - |s|];
      }
    }
  }

  /** The history after `add_message` has been called for each of `entries`, in
      order, starting from `h`. */
  function AppendAll(h: seq<Entry>, entries: seq<Entry>, maxHistory: int): seq<Entry>
    decreases |entries|
  {
    if entries == [] then h
    else AppendAll(Evict(h + [entries[0]], maxHistory), entries[1..], maxHistory)
  }

  /** Buffer eviction: after any number of appends the buffer holds exactly the
      most recent `maxHistory` entries of everything appended, in order. */
  lemma {:induction false} AppendAllKeepsMostRecent(h: seq<Entry>, entries: seq<Entry>, maxHistory: int)
    requires maxHistory >= 1
    requires |h| <= maxHistory
    ensures AppendAll(h, entries, maxHistory) == Evict(h + entries, maxHistory)
    decreases |entries|
  {
    if entries != [] {
      var first, rest := entries[0], entries[1..];
      var h' := Evict(h + [first], maxHistory);
      EvictKeepsMostRecent(h + [first], maxHistory);
      assert entries == [first] + rest;
      calc {
        AppendAll(h, entries, maxHistory);
        AppendAll(h', rest, maxHistory);
        { AppendAllKeepsMostRecent(h', rest, maxHistory); }
        Evict(h' + rest, maxHistory);
        { EvictThenAppend(h + [first], rest, maxHistory); }
        Evict((h + [first]) + rest, maxHistory);
        { assert (h + [first]) + rest == h + entries; }
        Evict(h + entries, maxHistory);
      }
    }
  }

  /** The context block (`_generate_context_info`); `now` is the formatted clock. */
  function ContextInfo(now: string, channelName: Option<string>, turns: int): string {
    Join(["--- 会話コンテキスト情報 ---", "現在の時刻: " + now]
         + (if Truthy(channelName) then ["チャンネル名: " + channelName.value] else [])
         + ["会話ターン数: " + IntToString(turns), "--- コンテキスト情報の終了 ---"], "\n")
  }

  lemma ContextInfoNonEmpty(now: string, channelName: Option<string>, turns: int)
    ensures ContextInfo(now, channelName, turns) != ""
  {
    var parts := ["--- 会話コンテキスト情報 ---", "現在の時刻: " + now]
         + (if Truthy(channelName) then ["チャンネル名: " + channelName.value] else [])
         + ["会話ターン数: " + IntToString(turns), "--- コンテキスト情報の終了 ---"];
    JoinStartsWithFirst(parts, "\n");
  }

  /** How `format_for_openai` renders one history entry. */
  function OpenAIEntry(e: Entry): ChatMessage {
    var role := if e.isSelf then "assistant" else "user";
    if !e.isSelf && IsBotName(e.author) then
      ChatMessage(role, "Bot (" + e.author + ") [" + e.timestamp + "]: " + e.content)
    else
      ChatMessage(role, e.author + " [" + e.timestamp + "]: " + e.content)
  }

  /** Roles and labels of the OpenAI rendering: `assistant` exactly for self
      entries, a `Bot (author)` label exactly for other bots, and otherwise the
      bare author with no `Human` label. */
  lemma OpenAIEntryLabels(e: Entry)
    ensures OpenAIEntry(e).role == (if e.isSelf then "assistant" else "user")
    ensures !e.isSelf && IsBotName(e.author) ==>
              StartsWith(OpenAIEntry(e).content, "Bot (" + e.author + ")")
    ensures e.isSelf || !IsBotName(e.author) ==>
              StartsWith(OpenAIEntry(e).content, e.author + " [")
  {
    var c := OpenAIEntry(e).content;
    if !e.isSelf && IsBotName(e.author) {
      assert c == ("Bot (" + e.author + ")") + (" [" + e.timestamp + "]: " + e.content);
    } else {
      assert c == (e.author + " [") + (e.timestamp + "]: " + e.content);
    }
  }

  /** The message list `format_for_openai` builds from a system prompt, the
      context block and a history. */
  function OpenAIMessages(systemPrompt: string, contextInfo: string, h: seq<Entry>): seq<ChatMessage> {
    [ChatMessage("system", systemPrompt), ChatMessage("system", contextInfo), ChatMessage("system", HistoryStart)]
    + OpenAIEntries(h)
    + [ChatMessage("system", HistoryEnd), ChatMessage("system", FormatInstructions)]
  }

  /** The history entries rendered one by one, in order. */
  function OpenAIEntries(h: seq<Entry>): seq<ChatMessage> {
    seq(|h|, i requires 0 <= i < |h| => OpenAIEntry(h[i]))
  }

  lemma OpenAIEntriesStep(h: seq<Entry>, i: nat)
    requires i < |h|
    ensures OpenAIEntries(h[..i + 1]) == OpenAIEntries(h[..i]) + [OpenAIEntry(h[i])]
  {
    assert forall j | 0 <= j < i :: h[..i + 1][j] == h[..i][j];
  }

  /** The layout of the OpenAI message list: system prompt, context block and
      start delimiter, one message per history entry in order, then the end
      delimiter and the format instructions. */
  lemma OpenAIMessagesLayout(systemPrompt: string, contextInfo: string, h: seq<Entry>)
    ensures var ms := OpenAIMessages(systemPrompt, contextInfo, h);
            && |ms| == |h| + 5
            && ms[0] == ChatMessage("system", systemPrompt)
            && ms[1] == ChatMessage("system", contextInfo)
            && ms[2] == ChatMessage("system", HistoryStart)
            && (forall i :: 0 <= i < |h| ==> ms[3 + i] == OpenAIEntry(h[i]))
            && ms[|h| + 3] == ChatMessage("system", HistoryEnd)
            && ms[|h| + 4] == ChatMessage("system", FormatInstructions)
  {
  }

  /** The label `format_for_anthropic` puts in front of an entry. */
  function AnthropicLabel(e: Entry): string {
    if e.isSelf then "Assistant [" + e.timestamp + "]"
    else if IsBotName(e.author) then "Bot (" + e.author + ") [" + e.timestamp + "]"
    else "Human (" + e.author + ") [" + e.timestamp + "]"
  }

  function AnthropicEntry(e: Entry): string {
    AnthropicLabel(e) + ": " + e.content + "\n\n"
  }

  /** Label precedence of the Anthropic rendering: `Assistant` for self entries,
      then `Bot (author)` for the four bot names, then `Human (author)`. */
  lemma AnthropicEntryLabels(e: Entry)
    ensures e.isSelf ==> StartsWith(AnthropicEntry(e), "Assistant [")
    ensures !e.isSelf && IsBotName(e.author) ==> StartsWith(AnthropicEntry(e), "Bot (" + e.author + ")")
    ensures !e.isSelf && !IsBotName(e.author) ==> StartsWith(AnthropicEntry(e), "Human (" + e.author + ")")
    ensures EndsWith(AnthropicEntry(e), e.content + "\n\n")
  {
    var c := AnthropicEntry(e);
    if e.isSelf {
      assert c == "Assistant [" + (e.timestamp + "]" + ": " + e.content + "\n\n");
    } else if IsBotName(e.author) {
      assert c == ("Bot (" + e.author + ")") + (" [" + e.timestamp + "]" + ": " + e.content + "\n\n");
    } else {
      assert c == ("Human (" + e.author + ")") + (" [" + e.timestamp + "]" + ": " + e.content + "\n\n");
    }
    assert c == (AnthropicLabel(e) + ": ") + (e.content + "\n\n");
  }

  /** The two renderings disagree on human authors: the flat prompt says
      `Human (author)`, the message list only `author`. */
  lemma RenderersDifferOnHumans(e: Entry)
    requires !e.isSelf && !IsBotName(e.author)
    ensures StartsWith(AnthropicEntry(e), "Human (")
    ensures OpenAIEntry(e).content == e.author + " [" + e.timestamp + "]: " + e.content
  {
    assert AnthropicEntry(e) == "Human (" + (e.author + ") [" + e.timestamp + "]" + ": " + e.content + "\n\n");
  }

  /** The entries of a history rendered one after the other. */
  function AnthropicTranscript(h: seq<Entry>): string {
    if h == [] then "" else AnthropicTranscript(h[..|h| - 1]) + AnthropicEntry(h[|h| - 1])
  }

  /** The text `format_for_anthropic` emits before the transcript. */
  function AnthropicHeader(systemPrompt: string, contextInfo: string): string {
    systemPrompt + "\n\n" + (if contextInfo != "" then contextInfo + "\n\n" else "")
    + HistoryStart + "\n\n"
  }

  /** The whole prompt `format_for_anthropic` returns: header, transcript, end
      delimiter, format instructions and the open `Assistant: ` cue. */
  function AnthropicPrompt(systemPrompt: string, contextInfo: string, h: seq<Entry>): string {
    AnthropicHeader(systemPrompt, contextInfo) + AnthropicTranscript(h)
    + HistoryEnd + "\n\n" + FormatInstructions + "\n\n" + "Assistant: "
  }

  lemma TranscriptStep(header: string, h: seq<Entry>, i: int)
    requires 0 <= i < |h|
    ensures header + AnthropicTranscript(h[..i]) + AnthropicEntry(h[i])
            == header + AnthropicTranscript(h[..i + 1])
  {
    assert h[..i + 1][..i] == h[..i];
  }

  lemma ExtendKeepsPrefix(s: string, p: string, t: string)
    requires StartsWith(s, p)
    ensures StartsWith(s + t, p)
  {
    assert (s + t)[..|p|] == s[..|p|];
  }

  /** The prompt opens with the system prompt and a blank line and closes on
      the open `Assistant: ` cue, whatever the history holds. */
  lemma AnthropicPromptShape(systemPrompt: string, contextInfo: string, h: seq<Entry>)
    ensures StartsWith(AnthropicPrompt(systemPrompt, contextInfo, h), systemPrompt + "\n\n")
    ensures EndsWith(AnthropicPrompt(systemPrompt, contextInfo, h), "Assistant: ")
  {
    var lead := systemPrompt + "\n\n";
    var s0 := lead + (if contextInfo != "" then contextInfo + "\n\n" else "");
    ExtendKeepsPrefix(lead, lead, if contextInfo != "" then contextInfo + "\n\n" else "");
    var s1 := s0 + HistoryStart;
    ExtendKeepsPrefix(s0, lead, HistoryStart);
    var s2 := s1 + "\n\n";
    ExtendKeepsPrefix(s1, lead, "\n\n");
    var s3 := s2 + AnthropicTranscript(h);
    ExtendKeepsPrefix(s2, lead, AnthropicTranscript(h));
    var s4 := s3 + HistoryEnd;
    ExtendKeepsPrefix(s3, lead, HistoryEnd);
    var s5 := s4 + "\n\n";
    ExtendKeepsPrefix(s4, lead, "\n\n");
    var s6 := s5 + FormatInstructions;
    ExtendKeepsPrefix(s5, lead, FormatInstructions);
    var s7 := s6 + "\n\n";
    ExtendKeepsPrefix(s6, lead, "\n\n");
    ExtendKeepsPrefix(s7, lead, "Assistant: ");
    assert AnthropicPrompt(systemPrompt, contextInfo, h) == s7 + "Assistant: ";
  }

  class ConversationManager {
    var history: seq<Entry>
    var maxHistory: int
    var maxTokens: int
    var conversationTurns: nat
    var channelName: Option<string>

    constructor (maxHistory: int, maxTokens: int)
      ensures history == [] && conversationTurns == 0 && channelName == None
      ensures this.maxHistory == maxHistory && this.maxTokens == maxTokens
    {
      history := [];
      this.maxHistory := maxHistory;
      this.maxTokens := maxTokens;
      conversationTurns := 0;
      channelName := None;
    }

    /** `add_message`: the stored channel name changes only on a non-empty
        one; the entry is self iff `botName` is given and equals `author`; the
        oldest entries are evicted; only non-self entries count as a turn. */
    method AddMessage(author: string, content: string, botName: Option<string>,
                      channelName: Option<string>, timestamp: string)
      modifies this
      ensures this.channelName == if Truthy(channelName) then channelName else old(this.channelName)
      ensures history == Evict(old(history) + [Entry(author, content, timestamp,
                                                     botName == Some(author), this.channelName)],
                               maxHistory)
      ensures maxHistory >= 1 ==> |history| <= maxHistory
      ensures conversationTurns == old(conversationTurns) + (if botName == Some(author) then 0 else 1)
      ensures maxHistory == old(maxHistory) && maxTokens == old(maxTokens)
    {
      if Truthy(channelName) {
        this.channelName := channelName;
      }
      var isSelf := botName.Some? && author == botName.value;
      var message := Entry(author, content, timestamp, isSelf, this.channelName);
      history := history + [message];
      if |history| > maxHistory {
        history := PyDrop(history, -maxHistory);
      }
      if !isSelf {
        conversationTurns := conversationTurns + 1;
      }
      if maxHistory >= 1 {
        EvictKeepsMostRecent(old(history) + [message], maxHistory);
      }
    }

    /** `get_recent_messages(count)`. */
    function GetRecentMessages(count: int): (r: seq<Entry>)
      reads this
      ensures count >= 1 && |history| >= count ==> r == history[|history| - count..] && |r| == count
      ensures |history| < count ==> r == history
      ensures count == 0 ==> r == history
      ensures count < 0 ==> r == history[if -count <= |history| then -count else |history|..]
    {
      if |history| >= count then PyDrop(history, -count) else history
    }

    /** `format_for_openai`: system prompt, context block, start delimiter, one
        message per history entry in order, end delimiter, format instructions. */
    method FormatForOpenAI(systemPrompt: string, now: string) returns (messages: seq<ChatMessage>)
      ensures messages == OpenAIMessages(systemPrompt, ContextInfo(now, channelName, conversationTurns), history)
    {
      messages := [ChatMessage("system", systemPrompt)];
      var contextInfo := ContextInfo(now, channelName, conversationTurns);
      ContextInfoNonEmpty(now, channelName, conversationTurns);
      if contextInfo != "" {
        messages := messages + [ChatMessage("system", contextInfo)];
      }
      messages := messages + [ChatMessage("system", HistoryStart)];
      ghost var head := messages;
      var i := 0;
      while i < |history|
        invariant 0 <= i <= |history|
        invariant messages == head + OpenAIEntries(history[..i])
      {
        OpenAIEntriesStep(history, i);
        messages := messages + [OpenAIEntry(history[i])];
        i := i + 1;
      }
      assert history[..i] == history;
      messages := messages + [ChatMessage("system", HistoryEnd)];
      messages := messages + [ChatMessage("system", FormatInstructions)];
    }

    /** `format_for_anthropic`: the system prompt and a blank line first, then
        the context block and the delimited transcript, and the open
        `Assistant: ` cue last. */
    method FormatForAnthropic(systemPrompt: string, now: string) returns (conversation: string)
      ensures conversation == AnthropicPrompt(systemPrompt, ContextInfo(now, channelName, conversationTurns), history)
      ensures StartsWith(conversation, systemPrompt + "\n\n")
      ensures EndsWith(conversation, "Assistant: ")
    {
      var contextInfo := ContextInfo(now, channelName, conversationTurns);
      var header := AnthropicHeader(systemPrompt, contextInfo);
      conversation := systemPrompt + "\n\n";
      if contextInfo != "" {
        conversation := conversation + (contextInfo + "\n\n");
      }
      conversation := conversation + HistoryStart + "\n\n";
      var i := 0;
      while i < |history|
        invariant 0 <= i <= |history|
        invariant conversation == header + AnthropicTranscript(history[..i])
      {
        assert history[..i + 1][..i] == history[..i];
        TranscriptStep(header, history, i);
        conversation := conversation + AnthropicEntry(history[i]);
        i := i + 1;
      }
      assert history[..i] == history;
      conversation := conversation + HistoryEnd + "\n\n";
      conversation := conversation + FormatInstructions + "\n\n";
      conversation := conversation + "Assistant: ";
      AnthropicPromptShape(systemPrompt, contextInfo, history);
    }

    /** `reset_conversation_turns`: afterwards no positive threshold calls for a
        cooldown; the history is untouched. */
    method ResetConversationTurns()
      modifies this
      ensures conversationTurns == 0
      ensures forall m :: m >= 1 ==> !ShouldCoolDown(m)
      ensures history == old(history) && channelName == old(channelName)
      ensures maxHistory == old(maxHistory) && maxTokens == old(maxTokens)
    {
      conversationTurns := 0;
    }

    /** `should_cool_down(max_turns)`. */
    predicate ShouldCoolDown(maxTurns: int)
      reads this
    {
      conversationTurns >= maxTurns
    }

    /** `clear_history`: empties the history and zeroes the turn count. */
    method ClearHistory()
      modifies this
      ensures history == [] && conversationTurns == 0
      ensures channelName == old(channelName)
      ensures maxHistory == old(maxHistory) && maxTokens == old(maxTokens)
    {
      history := [];
      conversationTurns := 0;
    }
  }

  /** `estimate_token_count`: one token per four characters, rounded down. */
  function EstimateTokenCount(text: string): (r: nat)
    ensures 4 * r <= |text| < 4 * (r + 1)
  {
    |text| / 4
  }
}
