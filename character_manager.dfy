/** The persona's character helpers (mixins/character_manager.py): the
    default record and fallback prompt used when the Notion record cannot be
    used, the sender-dependent prompt adjustment, the self-introduction text
    and the keyword set the utility selector scores adherence with. The
    field-assigning `load_character_settings` is a method of the persona class
    (module ConversationHandler), which owns the `character` and
    `system_prompt` fields. */
module CharacterManager {
  import opened Wrappers
  import opened Text
  import opened Notion
  import Conversation

  /** The record used when the lookup finds nothing or loading fails. */
  function DefaultCharacter(name: string): (c: Character)
    ensures c.Keys == {"name", "personality", "speaking_style", "language", "model"}
    ensures c["name"] == Str(name) && c["model"] == Str("gpt-4")
    ensures c["personality"] == Str("Friendly and helpful")
  {
    map["name" := Str(name), "personality" := Str("Friendly and helpful"),
        "speaking_style" := Str("Casual and conversational"), "language" := Str("English"),
        "model" := Str("gpt-4")]
  }

  /** The system prompt set when loading fails: the base role after the name
      when there is one, a one-line default otherwise. */
  function FallbackSystemPrompt(name: string, baseRole: Option<string>): (p: string)
    ensures StartsWith(p, "You are " + name + ".")
    ensures Truthy(baseRole) ==> EndsWith(p, "\n\n" + baseRole.value)
    ensures !Truthy(baseRole) ==> p == "You are " + name + ". Be friendly and helpful."
  {
    if Truthy(baseRole) then
      var p := "You are " + name + ".\n\n" + baseRole.value;
      assert p == ("You are " + name + ".") + ("\n\n" + baseRole.value);
      p
    else
      var p := "You are " + name + ". Be friendly and helpful.";
      assert p == ("You are " + name + ".") + " Be friendly and helpful.";
      p
  }

  /** Python truthiness of an optional record. */
  predicate CharacterTruthy(c: Option<Character>) {
    c.Some? && c.value != map[]
  }

  /** Some bot name of the renderers' list occurs in the lower-cased sender
      name. */
  predicate SenderLooksLikeBot(senderName: string) {
    exists b | b in Conversation.BotNames :: Contains(Lower(senderName), Lower(b))
  }

  /** `_adjust_system_prompt_for_sender`; `guidance` is the text the
      configuration's `load_bot_response_guidance` reads. */
  function AdjustSystemPromptForSender(systemPrompt: string, senderName: string, guidance: string): (p: string)
    ensures SenderLooksLikeBot(senderName) ==> p == systemPrompt + guidance
    ensures !SenderLooksLikeBot(senderName) ==> p == systemPrompt
  {
    if SenderLooksLikeBot(senderName) then systemPrompt + guidance else systemPrompt
  }

  /** The sender check is by substring, so it also fires for names the
      renderers do not treat as bots: "Claude-Fan" gets the guidance. */
  lemma SubstringCheckIsWider()
    ensures SenderLooksLikeBot("Claude-Fan")
    ensures !Conversation.IsBotName("Claude-Fan")
  {
    var l := Lower("Claude-Fan");
    assert l == "claude-fan";
    assert Lower("claude") == "claude";
    assert l[0..6] == "claude";
    assert OccursAt(l, "claude", 0);
  }

  /** Every exact bot name (after lower-casing) also passes the substring check. */
  lemma ExactBotNameLooksLikeBot(senderName: string)
    requires Conversation.IsBotName(senderName)
    ensures SenderLooksLikeBot(senderName)
  {
    var l := Lower(senderName);
    assert Lower(l) == l;
    assert OccursAt(l, l, 0);
  }

  const Greeting := "こんにちは！私は"
  const Invitation := "気軽に話しかけてください！"

  /** The optional introduction line for `key`, rendered by `render`. */
  function IntroPart(character: Option<Character>, key: string, render: PropValue -> string): seq<string> {
    if CharacterTruthy(character) && key in character.value then [render(character.value[key])] else []
  }

  /** The interests as introduced: a list joined by "、", anything else as is. */
  function IntroInterests(v: PropValue): string {
    if v.StrList? then Join(v.items, "、") else ValueText(v)
  }

  /** The introduction lines, in order. */
  function IntroductionParts(characterName: string, character: Option<Character>,
                             additionalInfo: Option<string>): (parts: seq<string>)
    ensures |parts| >= 2
    ensures parts[0] == Greeting + characterName + "です。"
    ensures parts[|parts| - 1] == Invitation
    ensures Truthy(additionalInfo) ==> parts[|parts| - 2] == additionalInfo.value
  {
    [Greeting + characterName + "です。"]
    + IntroPart(character, "personality", v => "性格: " + ValueText(v))
    + IntroPart(character, "speaking_style", v => "話し方: " + ValueText(v))
    + IntroPart(character, "interests", v => "興味・関心: " + IntroInterests(v))
    + IntroPart(character, "background", v => "背景: " + ValueText(v))
    + IntroPart(character, "model", v => "使用モデル: " + ValueText(v))
    + (if Truthy(additionalInfo) then [additionalInfo.value] else [])
    + [Invitation]
  }

  /** `generate_introduction_message`: the lines joined by newlines.
      `additionalInfo` is what the `get_additional_introduction_info` hook
      returns (None in the base persona). */
  function IntroductionMessage(characterName: string, character: Option<Character>,
                               additionalInfo: Option<string>): string {
    Join(IntroductionParts(characterName, character, additionalInfo), "\n")
  }

  /** The introduction opens with the greeting, closes with the invitation, and
      carries the additional line exactly when it is non-empty. */
  lemma IntroductionShape(characterName: string, character: Option<Character>, additionalInfo: Option<string>)
    ensures StartsWith(IntroductionMessage(characterName, character, additionalInfo),
                       Greeting + characterName + "です。")
    ensures EndsWith(IntroductionMessage(characterName, character, additionalInfo), Invitation)
    ensures Truthy(additionalInfo) ==>
              Contains(IntroductionMessage(characterName, character, additionalInfo), additionalInfo.value)
    ensures !Truthy(additionalInfo) && !CharacterTruthy(character) ==>
              IntroductionMessage(characterName, character, additionalInfo)
              == Greeting + characterName + "です。" + "\n" + Invitation
  {
    var parts := IntroductionParts(characterName, character, additionalInfo);
    JoinStartsWithFirst(parts, "\n");
    JoinEndsWithLast(parts, "\n");
    JoinContainsEach(parts, "\n");
    if !Truthy(additionalInfo) && !CharacterTruthy(character) {
      assert parts == [Greeting + characterName + "です。", Invitation];
      assert parts[..1] == [Greeting + characterName + "です。"];
      assert Join(parts[..1], "\n") == Greeting + characterName + "です。";
    }
  }

  /** The words a setting contributes: `.split()` of text, a list as is; any
      other value has no `split` and raises. */
  function SettingWords(v: PropValue, listAllowed: bool): Result<seq<string>> {
    if v.Str? then Ok(SplitWhitespace(v.s))
    else if listAllowed && v.StrList? then Ok(v.items)
    else Err("AttributeError: value has no split()")
  }

  function WordsOf(character: Character, key: string, listAllowed: bool): Result<seq<string>> {
    if key in character then SettingWords(character[key], listAllowed) else Ok([])
  }

  /** `_extract_character_keywords`: the distinct words of the personality and
      speaking style and the interests (a list, or split text); none without a
      character. */
  function ExtractCharacterKeywords(character: Option<Character>): (r: Result<set<string>>)
    ensures !CharacterTruthy(character) ==> r == Ok({})
  {
    if !CharacterTruthy(character) then Ok({})
    else
      var c := character.value;
      var personality :- WordsOf(c, "personality", false);
      var style :- WordsOf(c, "speaking_style", false);
      var interests :- WordsOf(c, "interests", true);
      Ok(set w | w in personality + style + interests)
  }

  /** The keywords are exactly the personality words, the speaking-style words
      and the interests (a list's items, or the words of text interests); a
      successful extraction means each of these settings had a splittable
      value. */
  lemma KeywordsAreWords(character: Character)
    requires character != map[]
    requires ExtractCharacterKeywords(Some(character)).Ok?
    ensures var kw := ExtractCharacterKeywords(Some(character)).value;
            && ("personality" in character ==>
                  (character["personality"].Str?
                   && forall w | w in SplitWhitespace(character["personality"].s) :: w in kw))
            && ("speaking_style" in character ==>
                  (character["speaking_style"].Str?
                   && forall w | w in SplitWhitespace(character["speaking_style"].s) :: w in kw))
            && ("interests" in character && character["interests"].StrList? ==>
                  forall w | w in character["interests"].items :: w in kw)
            && ("interests" in character && character["interests"].Str? ==>
                  forall w | w in SplitWhitespace(character["interests"].s) :: w in kw)
            && ("interests" in character ==>
                  character["interests"].Str? || character["interests"].StrList?)
    ensures forall w | w in ExtractCharacterKeywords(Some(character)).value ::
              ("personality" in character && w in SplitWhitespace(character["personality"].s))
              || ("speaking_style" in character && w in SplitWhitespace(character["speaking_style"].s))
              || ("interests" in character && character["interests"].Str?
                  && w in SplitWhitespace(character["interests"].s))
              || ("interests" in character && character["interests"].StrList?
                  && w in character["interests"].items)
  {
  }

  /** Personality and speaking-style keywords are real words. */
  lemma PersonalityKeywordsAreWords(character: Character)
    requires "personality" in character && character["personality"].Str?
    ensures forall w | w in SplitWhitespace(character["personality"].s) :: w != [] && NoSpace(w)
  {
    SplitWhitespaceWords(character["personality"].s);
  }

  /** A personality that is a list makes extraction raise. */
  lemma ListPersonalityRaises(character: Character)
    requires "personality" in character && character["personality"].StrList?
    ensures ExtractCharacterKeywords(Some(character)).Err?
  {
  }
}
