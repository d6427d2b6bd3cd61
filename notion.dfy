/** The character store (services/notion_service.py): Notion property objects
    are parsed into character records, records are cached by lower-cased name
    and refreshed when the cache is older than the configured interval, and a
    record is rendered into a system prompt. The HTTP query is a parameter: the
    list of pages it returned, or the error it raised. */
module Notion {
  import opened Wrappers
  import opened Text

  /** A property value as stored in a character record. Numbers are integers
      here. */
  datatype PropValue = Str(s: string) | StrList(items: seq<string>) | Flag(b: bool) | Num(n: int)

  /** A character record: setting name to value. */
  type Character = map<string, PropValue>

  /** A rich-text item; `plainText` is None when the key is missing. */
  datatype TextObject = TextObject(plainText: Option<string>)

  /** A select option; `name` is None when the key is missing. */
  datatype SelectOption = SelectOption(name: Option<string>)

  /** A Notion property object, by its `type` field. */
  datatype PropertyObject =
    | Title(title: seq<TextObject>)
    | RichText(richText: seq<TextObject>)
    | Select(select: Option<SelectOption>)
    | MultiSelect(options: seq<SelectOption>)
    | Checkbox(checkbox: Option<bool>)
    | Number(number: Option<int>)
    | OtherType

  /** The property objects of one page, by Notion property name. */
  type Page = map<string, PropertyObject>

  /** The first item's plain text ("" when it has none), or None for no item. */
  function FirstPlainText(items: seq<TextObject>): Option<PropValue> {
    if items != [] then Some(Str(items[0].plainText.GetOr(""))) else None
  }

  /** The names of the options that carry one, in order. */
  function OptionNames(options: seq<SelectOption>): (names: seq<string>)
    ensures |names| <= |options|
  {
    if options == [] then []
    else OptionNames(options[..|options| - 1])
         + (if options[|options| - 1].name.Some? then [options[|options| - 1].name.value] else [])
  }

  lemma {:induction false} OptionNamesAreNames(options: seq<SelectOption>)
    ensures forall n | n in OptionNames(options) :: exists o | o in options :: o.name == Some(n)
    ensures forall o | o in options && o.name.Some? :: o.name.value in OptionNames(options)
  {
    if options != [] {
      var init := options[..|options| - 1];
      OptionNamesAreNames(init);
      assert forall o | o in init :: o in options;
      assert forall o | o in options :: o in init || o == options[|options| - 1];
    }
  }

  /** `_extract_property_value`. */
  function ExtractPropertyValue(p: PropertyObject): Option<PropValue> {
    match p
    case Title(items) => FirstPlainText(items)
    case RichText(items) => FirstPlainText(items)
    case Select(o) =>
      if o.Some? && o.value.name.Some?
      then Some(Str(o.value.name.value)) else None
    case MultiSelect(options) => Some(StrList(OptionNames(options)))
    case Checkbox(b) => if b.Some? then Some(Flag(b.value)) else None
    case Number(n) => if n.Some? then Some(Num(n.value)) else None
    case OtherType => None
  }

  /** What each kind of property object yields: text kinds their first item's
      plain text, select its option's name, multi-select the list of names,
      checkbox and number their raw value, and nothing for any other type. */
  lemma ExtractPropertyValueCases(p: PropertyObject)
    ensures (p.Title? || p.RichText?) ==>
              var items := if p.Title? then p.title else p.richText;
              ExtractPropertyValue(p) == (if items == [] then None
                                          else Some(Str(items[0].plainText.GetOr(""))))
    ensures p.Select? ==>
              ExtractPropertyValue(p) == (if p.select.Some? && p.select.value.name.Some?
                                          then Some(Str(p.select.value.name.value)) else None)
    ensures p.MultiSelect? ==>
              ExtractPropertyValue(p).Some? && ExtractPropertyValue(p).value.StrList?
              && (forall o | o in p.options && o.name.Some? :: o.name.value in ExtractPropertyValue(p).value.items)
    ensures p.Checkbox? ==> ExtractPropertyValue(p) == (if p.checkbox.Some? then Some(Flag(p.checkbox.value)) else None)
    ensures p.Number? ==> ExtractPropertyValue(p) == (if p.number.Some? then Some(Num(p.number.value)) else None)
    ensures p.OtherType? ==> ExtractPropertyValue(p) == None
  {
    if p.MultiSelect? {
      OptionNamesAreNames(p.options);
    }
  }

  /** The fields a page yields for the settings in `done`. */
  function ExtractedFields(mapping: map<string, string>, page: Page, done: set<string>): Character {
    map k | k in done && k in mapping && mapping[k] in page
              && ExtractPropertyValue(page[mapping[k]]).Some?
          :: ExtractPropertyValue(page[mapping[k]]).value
  }

  /** The record a page yields, if it has a name. */
  function PageCharacter(mapping: map<string, string>, page: Page): Option<Character> {
    var fields := ExtractedFields(mapping, page, mapping.Keys);
    if "name" in fields then Some(fields) else None
  }

  /** `_parse_notion_page`: each configured setting whose Notion property is
      present and yields a value is filled in; a page without a name yields
      nothing. */
  method ParseNotionPage(mapping: map<string, string>, page: Page) returns (r: Option<Character>)
    ensures r == PageCharacter(mapping, page)
    ensures r.Some? ==> "name" in r.value && r.value.Keys <= mapping.Keys
    ensures r.Some? ==> forall k | k in r.value ::
              mapping[k] in page && ExtractPropertyValue(page[mapping[k]]) == Some(r.value[k])
  {
    var character: Character := map[];
    var remaining := mapping.Keys;
    while remaining != {}
      invariant remaining <= mapping.Keys
      invariant character == ExtractedFields(mapping, page, mapping.Keys - remaining)
      decreases remaining
    {
      var charProp :| charProp in remaining;
      var notionProp := mapping[charProp];
      if notionProp in page {
        var value := ExtractPropertyValue(page[notionProp]);
        if value.Some? {
          character := character[charProp := value.value];
        }
      }
      remaining := remaining - {charProp};
      assert character == ExtractedFields(mapping, page, mapping.Keys - remaining);
    }
    assert mapping.Keys - remaining == mapping.Keys;
    r := if "name" in character then Some(character) else None;
  }

  /** The records a list of pages yields, in page order. */
  function PagesCharacters(mapping: map<string, string>, pages: seq<Page>): seq<Character> {
    if pages == [] then []
    else
      var c := PageCharacter(mapping, pages[|pages| - 1]);
      PagesCharacters(mapping, pages[..|pages| - 1]) + (if c.Some? then [c.value] else [])
  }

  lemma {:induction false} PagesCharactersNamed(mapping: map<string, string>, pages: seq<Page>)
    ensures forall c | c in PagesCharacters(mapping, pages) :: "name" in c
  {
    if pages != [] {
      PagesCharactersNamed(mapping, pages[..|pages| - 1]);
    }
  }

  /** The parsing loop of `_query_notion_database`: every page is parsed and
      the pages that yield a record are kept, in order. */
  method CharactersFromPages(mapping: map<string, string>, pages: seq<Page>) returns (characters: seq<Character>)
    ensures characters == PagesCharacters(mapping, pages)
    ensures forall c | c in characters :: "name" in c
  {
    characters := [];
    var i := 0;
    while i < |pages|
      invariant 0 <= i <= |pages|
      invariant characters == PagesCharacters(mapping, pages[..i])
    {
      assert pages[..i + 1][..i] == pages[..i];
      var character := ParseNotionPage(mapping, pages[i]);
      if character.Some? {
        characters := characters + [character.value];
      }
      i := i + 1;
    }
    assert pages[..i] == pages;
    PagesCharactersNamed(mapping, pages);
  }

  /** The cache key of a record: its lower-cased name, when the name is text. */
  function NameKey(c: Character): Option<string> {
    if "name" in c && c["name"].Str? then Some(Lower(c["name"].s)) else None
  }

  /** A record whose name is not text: `.lower()` raises on it. */
  predicate BadName(c: Character) {
    "name" in c && !c["name"].Str?
  }

  /** The cache a refresh builds: `{name.lower(): record}` over the named
      records, later records overwriting earlier ones; a name that is not
      text raises, and the whole refresh is abandoned. */
  function CacheOf(records: seq<Character>): Result<map<string, Character>> {
    if records == [] then Ok(map[])
    else
      var last := records[|records| - 1];
      var init := CacheOf(records[..|records| - 1]);
      if init.Err? then init
      else if BadName(last) then Err("AttributeError: name has no lower()")
      else if NameKey(last).Some? then Ok(init.value[NameKey(last).value := last])
      else init
  }

  /** The cache is built exactly when no record has a non-text name; it then
      holds one key per lower-cased name, mapped to the LAST record with that
      key. */
  lemma {:induction false} CacheOfContents(records: seq<Character>)
    ensures CacheOf(records).Ok? <==> forall i | 0 <= i < |records| :: !BadName(records[i])
    ensures CacheOf(records).Ok? ==>
              forall k :: k in CacheOf(records).value <==>
                          exists i | 0 <= i < |records| :: NameKey(records[i]) == Some(k)
    ensures CacheOf(records).Ok? ==>
              forall i, k | 0 <= i < |records| && NameKey(records[i]) == Some(k)
                            && (forall j | i < j < |records| :: NameKey(records[j]) != Some(k))
                :: CacheOf(records).value[k] == records[i]
    ensures CacheOf(records).Ok? ==>
              forall k | k in CacheOf(records).value :: NameKey(CacheOf(records).value[k]) == Some(k)
  {
    if records != [] {
      var n := |records|;
      var init := records[..n - 1];
      CacheOfContents(init);
      assert forall i | 0 <= i < n - 1 :: records[i] == init[i];
      if CacheOf(records).Ok? {
        var m := CacheOf(records).value;
        var m0 := CacheOf(init).value;
        forall k
          ensures k in m <==> exists i | 0 <= i < n :: NameKey(records[i]) == Some(k)
        {
          if k in m && k !in m0 {
            assert NameKey(records[n - 1]) == Some(k);
          }
          if exists i | 0 <= i < n :: NameKey(records[i]) == Some(k) {
            var i :| 0 <= i < n && NameKey(records[i]) == Some(k);
            if i < n - 1 {
              assert NameKey(init[i]) == Some(k);
            }
          }
        }
        forall i, k | 0 <= i < n && NameKey(records[i]) == Some(k)
                      && (forall j | i < j < n :: NameKey(records[j]) != Some(k))
          ensures m[k] == records[i]
        {
          if i < n - 1 {
            assert NameKey(records[n - 1]) != Some(k);
            assert NameKey(init[i]) == Some(k);
            assert forall j | i < j < n - 1 :: NameKey(init[j]) != Some(k);
          }
        }
      }
    }
  }

  /** `self.character_cache.get(character_name.lower())`. */
  function CacheGet(cache: map<string, Character>, characterName: string): (r: Option<Character>)
    ensures r.Some? <==> Lower(characterName) in cache
    ensures r.Some? ==> r.value == cache[Lower(characterName)]
  {
    if Lower(characterName) in cache then Some(cache[Lower(characterName)]) else None
  }

  lemma LowerIdempotent(s: string)
    ensures Lower(Lower(s)) == Lower(s)
  {
  }

  /** Lookup is case-insensitive: names that lower-case alike find the same
      record, and a record cached from a refresh is found under any casing of
      its own name. */
  lemma CacheLookupCaseInsensitive(records: seq<Character>, i: int, characterName: string)
    requires CacheOf(records).Ok? && 0 <= i < |records| && NameKey(records[i]).Some?
    requires Lower(characterName) == NameKey(records[i]).value
    ensures CacheGet(CacheOf(records).value, characterName).Some?
    ensures NameKey(CacheGet(CacheOf(records).value, characterName).value) == Some(Lower(characterName))
  {
    CacheOfContents(records);
    var k := NameKey(records[i]).value;
    var m := CacheOf(records).value;
    assert k in m;
    assert NameKey(m[k]) == Some(k);
  }

  /** The refreshed cache keys a record only under its lower-cased name: a
      record named "Dr. Watson" is found as "dr. watson" but not under the
      space-stripped "dr.watson". */
  lemma NoCompactKey()
    ensures var records := [map["name" := Str("Dr. Watson")]];
            CacheOf(records).Ok?
            && "dr. watson" in CacheOf(records).value
            && "dr.watson" !in CacheOf(records).value
  {
    var records: seq<Character> := [map["name" := Str("Dr. Watson")]];
    assert Lower("Dr. Watson") == "dr. watson";
    assert records[..0] == [];
    assert CacheOf(records).value == map["dr. watson" := records[0]];
  }

  /** The configuration `notion_config.json` provides; each field is None when
      its key is absent, and the database id's value may itself be null. */
  datatype NotionConfig = NotionConfig(databaseId: Option<Option<string>>,
                                       characterProperties: Option<map<string, string>>,
                                       refreshIntervalMinutes: Option<int>)

  const DefaultPropertyMapping: map<string, string> := map[
    "name" := "Name", "personality" := "Personality", "speaking_style" := "Speaking Style",
    "language" := "Language", "restrictions" := "Restrictions", "background" := "Background",
    "interests" := "Interests", "model" := "Model"]

  /** The configuration used when the file cannot be loaded. */
  function FallbackConfig(databaseId: Option<string>): NotionConfig {
    NotionConfig(Some(databaseId), Some(DefaultPropertyMapping), Some(60))
  }

  /** A refresh is due when strictly more than the interval has passed. */
  predicate RefreshDue(now: real, lastRefreshTime: real, intervalMinutes: int) {
    now - lastRefreshTime > (intervalMinutes * 60) as real
  }

  class NotionService {
    var apiKey: Option<string>
    var databaseId: Option<string>
    var config: NotionConfig
    var characterCache: map<string, Character>
    var lastRefreshTime: real

    /** `__init__`: `loadedConfig` is None when the configuration file could
        not be loaded; a missing or empty database id falls back to the
        configuration's. */
    constructor (apiKey: Option<string>, databaseId: Option<string>, loadedConfig: Option<NotionConfig>)
      ensures this.apiKey == apiKey
      ensures config == if loadedConfig.Some? then loadedConfig.value else FallbackConfig(databaseId)
      ensures this.databaseId == if !Truthy(databaseId) && config.databaseId.Some?
                                 then config.databaseId.value else databaseId
      ensures characterCache == map[] && lastRefreshTime == 0.0
    {
      var configuration := if loadedConfig.Some? then loadedConfig.value else FallbackConfig(databaseId);
      this.apiKey := apiKey;
      config := configuration;
      this.databaseId := if !Truthy(databaseId) && configuration.databaseId.Some?
                         then configuration.databaseId.value else databaseId;
      characterCache := map[];
      lastRefreshTime := 0.0;
    }

    function RefreshIntervalMinutes(): int
      reads this
    {
      config.refreshIntervalMinutes.GetOr(60)
    }

    function PropertyMapping(): map<string, string>
      reads this
    {
      config.characterProperties.GetOr(map[])
    }

    /** `refresh_character_cache`; `query` is what the database query returned
        (the pages) or raised, `refreshedAt` the clock after it. Without an API
        key or database id, on a query error, or on a record whose name is
        not text, nothing changes; otherwise the cache is replaced wholesale. */
    method RefreshCharacterCache(refreshedAt: real, query: Result<seq<Page>>)
      modifies this
      ensures apiKey == old(apiKey) && databaseId == old(databaseId) && config == old(config)
      ensures (!Truthy(apiKey) || !Truthy(databaseId) || query.Err?) ==>
                characterCache == old(characterCache) && lastRefreshTime == old(lastRefreshTime)
      ensures Truthy(apiKey) && Truthy(databaseId) && query.Ok? ==>
                var cache := CacheOf(PagesCharacters(PropertyMapping(), query.value));
                if cache.Ok? then characterCache == cache.value && lastRefreshTime == refreshedAt
                else characterCache == old(characterCache) && lastRefreshTime == old(lastRefreshTime)
    {
      if !Truthy(apiKey) {
        return;
      }
      if !Truthy(databaseId) {
        return;
      }
      if query.Ok? {
        var characters := CharactersFromPages(PropertyMapping(), query.value);
        var cache := CacheOf(characters);
        if cache.Ok? {
          characterCache := cache.value;
          lastRefreshTime := refreshedAt;
        }
      }
    }

    /** The cache and refresh time a lookup leaves behind, from the ones it
        found: when a refresh is due and succeeds (API key and database id
        set, query answered, every name text), the new cache is installed at
        `refreshedAt`; otherwise both stay as they were. */
    predicate AfterLookup(cache0: map<string, Character>, time0: real, now: real, refreshedAt: real,
                          query: Result<seq<Page>>)
      reads this
    {
      var cache := if RefreshDue(now, time0, RefreshIntervalMinutes()) && Truthy(apiKey) && Truthy(databaseId)
                      && query.Ok?
                   then CacheOf(PagesCharacters(PropertyMapping(), query.value))
                   else Err("not refreshed");
      if cache.Ok? then characterCache == cache.value && lastRefreshTime == refreshedAt
      else characterCache == cache0 && lastRefreshTime == time0
    }

    /** `get_character`: refresh first when the cache is stale (strictly
        older than the interval), then look up the lower-cased name. */
    method GetCharacter(characterName: string, now: real, refreshedAt: real, query: Result<seq<Page>>)
      returns (r: Option<Character>)
      modifies this
      ensures apiKey == old(apiKey) && databaseId == old(databaseId) && config == old(config)
      ensures AfterLookup(old(characterCache), old(lastRefreshTime), now, refreshedAt, query)
      ensures r == CacheGet(characterCache, characterName)
    {
      if RefreshDue(now, lastRefreshTime, RefreshIntervalMinutes()) {
        RefreshCharacterCache(refreshedAt, query);
      }
      r := CacheGet(characterCache, characterName);
    }
  }

  /** A fresh service (last refresh at 0) refreshes on its first lookup
      whenever the clock reads more than the interval. */
  lemma FirstLookupRefreshes(now: real, intervalMinutes: int)
    requires now > (intervalMinutes * 60) as real
    ensures RefreshDue(now, 0.0, intervalMinutes)
  {
  }

  const GeneralInstruction :=
    "You are participating in a Discord chat with other AI bots and possibly humans. "
    + "Keep your responses concise and engaging. Respond naturally to the conversation "
    + "flow and stay in character at all times."

  /** One character of a `repr` body quoted with `q`: backslashes, the quote
      and the line controls are escaped. */
  function EscapeChar(c: char, q: char): string {
    if c == '\\' then "\\\\"
    else if c == q then ['\\', q]
    else if c == '\n' then "\\n"
    else if c == '\r' then "\\r"
    else if c == '\t' then "\\t"
    else [c]
  }

  function Escaped(s: string, q: char): string {
    if s == [] then [] else Escaped(s[..|s| - 1], q) + EscapeChar(s[|s| - 1], q)
  }

  /** Python's `repr` of a string: in single quotes unless the text holds a
      single quote and no double quote, with the body escaped. */
  function Repr(s: string): string {
    var q := if '\'' in s && '"' !in s then '"' else '\'';
    [q] + Escaped(s, q) + [q]
  }

  /** Text with nothing to escape is its own `repr` body. */
  lemma {:induction false} EscapedPlain(s: string, q: char)
    requires forall i | 0 <= i < |s| :: s[i] != '\\' && s[i] != q && s[i] != '\n' && s[i] != '\r' && s[i] != '\t'
    ensures Escaped(s, q) == s
  {
    if s != [] {
      EscapedPlain(s[..|s| - 1], q);
    }
  }

  /** `repr` quotes plain text in single quotes, and text holding only single
      quotes in double quotes, unescaped. */
  lemma ReprQuoting(s: string)
    requires forall i | 0 <= i < |s| :: s[i] != '\\' && s[i] != '"' && s[i] != '\n' && s[i] != '\r' && s[i] != '\t'
    ensures '\'' !in s ==> Repr(s) == "'" + s + "'"
    ensures '\'' in s ==> Repr(s) == "\"" + s + "\""
  {
    if '\'' in s {
      EscapedPlain(s, '"');
    } else {
      EscapedPlain(s, '\'');
    }
  }

  /** `["it's"]` is rendered with double quotes, as Python prints it. */
  lemma ApostropheItemRepr()
    ensures ValueText(StrList(["it's"])) == "[\"it's\"]"
  {
    ReprQuoting("it's");
  }

  /** Python's `str(v)` for a stored value: a list is rendered by `repr` of
      each item, comma-separated in brackets. */
  function ValueText(v: PropValue): string {
    match v
    case Str(s) => s
    case StrList(items) => "[" + Join(seq(|items|, i requires 0 <= i < |items| => Repr(items[i])), ", ") + "]"
    case Flag(b) => if b then "True" else "False"
    case Num(n) => IntToString(n)
  }

  /** The interests text: a list joined by ", ", anything else as is. */
  function InterestsText(v: PropValue): string {
    if v.StrList? then Join(v.items, ", ") else ValueText(v)
  }

  /** The optional part for `key`, rendered by `render`. */
  function Part(c: Character, key: string, render: PropValue -> string): seq<string> {
    if key in c then [render(c[key])] else []
  }

  /** The prompt lines `format_character_prompt` collects, in order. */
  function PromptParts(c: Character): (parts: seq<string>)
    ensures |parts| >= 1 && parts[|parts| - 1] == GeneralInstruction
    ensures "name" in c ==> parts[0] == "You are " + ValueText(c["name"]) + "."
    ensures "interests" in c ==> "Your interests include: " + InterestsText(c["interests"]) in parts
  {
    Part(c, "name", v => "You are " + ValueText(v) + ".")
    + Part(c, "personality", v => "Personality: " + ValueText(v))
    + Part(c, "speaking_style", v => "Speaking style: " + ValueText(v))
    + Part(c, "language", v => "You primarily communicate in " + ValueText(v) + ".")
    + Part(c, "background", v => "Background: " + ValueText(v))
    + Part(c, "interests", v => "Your interests include: " + InterestsText(v))
    + Part(c, "restrictions", v => "Restrictions: " + ValueText(v))
    + [GeneralInstruction]
  }

  /** `format_character_prompt`: the present parts joined by blank lines. */
  function FormatCharacterPrompt(c: Character): string {
    Join(PromptParts(c), "\n\n")
  }

  /** The prompt opens with "You are N." when the record has a name, always
      ends with the general instruction, and contains every present part. */
  lemma FormatCharacterPromptShape(c: Character)
    ensures "name" in c ==> StartsWith(FormatCharacterPrompt(c), "You are " + ValueText(c["name"]) + ".")
    ensures EndsWith(FormatCharacterPrompt(c), GeneralInstruction)
    ensures forall p | p in PromptParts(c) :: Contains(FormatCharacterPrompt(c), p)
    ensures "interests" in c ==> Contains(FormatCharacterPrompt(c), "Your interests include: " + InterestsText(c["interests"]))
  {
    var parts := PromptParts(c);
    JoinStartsWithFirst(parts, "\n\n");
    JoinEndsWithLast(parts, "\n\n");
    JoinContainsEach(parts, "\n\n");
  }

  /** Interests stored as a list are rendered comma-separated. */
  lemma InterestsListJoined()
    ensures InterestsText(StrList(["AI", "Programming"])) == "AI, Programming"
  {
    assert ["AI", "Programming"][..1] == ["AI"];
  }
}
