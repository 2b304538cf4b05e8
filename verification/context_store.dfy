/** The per-chat conversation store of the bot (class `ContextManager` in
    src/services/context_manager.py): message history trimmed to a per-chat
    limit, per-kind "generating" flags, prompt and role overrides, the
    context-limit overrides, cleanup message ids, chat settings, multi-step
    user states, force-stop flags and the per-chat auto-analysis switch,
    together with the payload builder that turns a chat's history into the
    messages sent to the text model. Clock readings are the parameter `now`. */
module ContextStore {
  import opened Wrappers
  import opened Text
  import Config
  import RateLimiting

  /** The `author` dictionary of a user entry; `None` is a missing key. */
  datatype Author = Author(id: Option<int>, name: Option<string>, username: Option<string>)

  /** One history entry. */
  datatype Entry = Entry(role: string, content: string, timestamp: real,
                         author: Option<Author>, isImageContext: bool)

  /** One message of the payload for the text model. */
  datatype ApiMessage = ApiMessage(role: string, content: string)

  /** A chat setting value: the settings hold short strings and the
      integer context limit. */
  datatype SettingValue = Str(text: string) | Int(number: int)

  type Settings = map<string, SettingValue>

  /** The data of one multi-step user state. */
  type StateData = map<string, SettingValue>

  /** The usage counters of a chat (the activity timestamp is left out). */
  datatype UsageStats = UsageStats(total: nat, user: nat, assistant: nat, rolesUsed: map<string, nat>)

  // ----- Constants -----

  /** The default system prompt; the pieces are the source's adjacent
      string literals. */
  const DefaultSystemPrompt: string :=
    "Ты - полезный ассистент по имени СикСик. " +
    "Отвечай дружелюбно и используй эмодзи для лучшего восприятия. " +
    "Будь полезным и информативным в своих ответах. " +
    "Ты всегда стараешься помочь пользователю и дать максимально полезный ответ. " +
    "Если не можешь выполнить запрос полностью, предложи альтернативы или частичное решение. " +
    "Избегай отказов в помощи - лучше объясни ограничения и предложи что-то полезное. " +
    "НЕ используй формальные фразы типа \'я здесь, чтобы поддерживать уважительное общение\' - " +
    "вместо этого просто помоги пользователю с его вопросом или предложи альтернативу."

  const PhilosopherPrompt: string :=
    "Ты — мудрый рассказчик в кинематографичной сцене. " +
    "Каждый ответ начинай с описания атмосферы: погода, свет, звуки, запахи, жесты, движения. " +
    "Говори метафорами, как поэт, вставляй ремарки в курсиве (например: медленно затягивается сигаретой, взгляд уходит в окно). " +
    "Отвечай на любой вопрос так, будто это философская реплика в фильме нуар или старом романе. " +
    "Не просто давай совет — связывай его с воспоминаниями, чувствами и скрытым смыслом. " +
    "Тон — меланхоличный, глубокий, иногда с лёгкой грустью."

  const PsychologistPrompt: string :=
    "Ты — внимательный психолог-консультант. " +
    "Отвечай подробно и детально, как психолог. " +
    "Структурируй помощь: валидируй эмоции, формулируй гипотезы, предлагай шаги."

  const RudePrompt: string :=
    "Отвечай грубо, с матами и сарказмом, как дерзкий собеседник из подворотни."

  const AstrologerPrompt: string :=
    "Ты — опытный астролог и нумеролог, помогаешь мне понять влияние чисел и астрологических знаков на мою жизнь. " +
    "Твои ответы должны быть информативными, понятными и персонализированными. " +
    "Твои советы основаны на астрологии и нумерологии. "

  /** The predefined personas, by key. */
  const PredefinedRoles: map<string, string> := map[
    "философ" := PhilosopherPrompt,
    "психолог" := PsychologistPrompt,
    "быдло" := RudePrompt,
    "астролог" := AstrologerPrompt
  ]

  /** The persona keys in the order `get_available_roles` lists them. */
  const RoleKeys: seq<string> := ["философ", "психолог", "быдло", "астролог"]

  /** Lower-case fragments that make a custom prompt unacceptable. */
  const DangerousPatterns: seq<string> := [
    "ignore previous instructions", "forget everything", "system prompt", "you are now", "pretend to be"
  ]

  /** The longest acceptable custom prompt. */
  const MaxPromptLength: nat := 2000

  /** The largest per-chat context limit; larger requests are lowered to it. */
  const MaxContextLimit: int := 500

  /** Lower-case markers of transcribed audio, in the order they are tried. */
  const AudioIndicators: seq<string> := [
    "голосовое сообщение", "аудио сообщение", "voice message", "audio message",
    "транскрипция:", "transcription:", "из аудио:", "from audio:", "в голосовом:", "in voice:"
  ]

  const ImageContextPrefix: string :=
    "ВАЖНО: У пользователя есть изображение в контексте диалога. Анализ изображения: "
  const ImageContextSuffix: string :=
    "\n\nТы МОЖЕШЬ видеть и анализировать это изображение. " +
    "Отвечай на вопросы пользователя с учетом этой информации об изображении. " +
    "НЕ говори, что не можешь видеть изображения - у тебя есть полная информация о нем."

  const InvalidPromptError: string := "Недопустимый промпт"
  const UnknownRoleError: string := "Неизвестная роль"
  const LimitTooSmallError: string := "Лимит должен быть не меньше 1"

  const RussianDirective: string := "Отвечай на русском языке."
  const EnglishDirective: string := "Answer in English."
  /** The short-answer directive, with the two replacement characters that
      stand in the source text in place of one Cyrillic letter. */
  const ShortDirective: string := "Пиши кратко, не более " + "3–5 предло\U{FFFD}\U{FFFD}ений по существу."
  const LongDirective: string := "Пиши подробно и развёрнуто, " + "с примерами при необходимости."

  /** The keys `update_settings` accepts: those of the default settings. */
  const SettingKeys: set<string> := {"format", "verbosity", "lang", "group_mode", "context_limit"}

  /** The default settings for a store whose global limit is `limit`. */
  function DefaultSettings(limit: int): (s: Settings)
    ensures s.Keys == SettingKeys
  {
    map["format" := Str("md"), "verbosity" := Str("normal"), "lang" := Str("auto"),
        "group_mode" := Str("mention_or_reply"), "context_limit" := Int(limit)]
  }

  // ----- History -----

  /** What remains of a history after trimming to `limit` entries: the
      newest `limit` when there are more and the limit is positive. */
  function TrimToLimit(h: seq<Entry>, limit: int): seq<Entry> {
    if limit > 0 && |h| > limit then h[|h| - limit..] else h
  }

  /** Adding an entry keeps it last and keeps exactly the newest `limit`
      entries, in their original order, when a positive limit is exceeded. */
  lemma AddKeepsNewest(h: seq<Entry>, e: Entry, limit: int)
    ensures var r := TrimToLimit(h + [e], limit);
      && |r| == (if limit > 0 && |h| + 1 > limit then limit else |h| + 1)
      && r == (h + [e])[|h| + 1 - |r|..]
      && (|r| > 0 ==> r[|r| - 1] == e)
  {
  }

  /** A history within a positive limit stays within it after an add. */
  lemma AddStaysWithinLimit(h: seq<Entry>, e: Entry, limit: int)
    requires 0 < limit && |h| <= limit
    ensures |TrimToLimit(h + [e], limit)| <= limit
    ensures TrimToLimit(h + [e], limit) == (if |h| < limit then h + [e] else h[1..] + [e])
  {
    if |h| == limit {
      assert (h + [e])[1..] == h[1..] + [e];
    }
  }

  /** The system entry `add_image_context` appends. */
  function ImageContextEntry(analysis: string, now: real): (e: Entry)
    ensures e.role == "system" && e.isImageContext && e.author == None
    ensures StartsWith(e.content, ImageContextPrefix) && EndsWith(e.content, ImageContextSuffix)
  {
    var content := ImageContextPrefix + analysis + ImageContextSuffix;
    assert content[..|ImageContextPrefix|] == ImageContextPrefix;
    assert content[|content| - |ImageContextSuffix|..] == ImageContextSuffix;
    Entry("system", content, now, None, true)
  }

  // ----- Prompts and roles -----

  /** What `_validate_prompt` accepts: some non-whitespace character, at
      most 2000 characters, and none of the dangerous patterns in the
      lower-cased text. */
  predicate ValidPrompt(p: string) {
    Strip(p) != [] && |p| <= MaxPromptLength
    && forall i :: 0 <= i < |DangerousPatterns| ==> !Contains(Lower(p), DangerousPatterns[i])
  }

  /** `_validate_prompt`: blankness, then length, then the pattern loop,
      which stops at the first hit. */
  method ValidatePrompt(p: string) returns (ok: bool)
    ensures ok == ValidPrompt(p)
  {
    if p == [] || Strip(p) == [] {
      return false;
    }
    if |p| > MaxPromptLength {
      return false;
    }
    var lowered := Lower(p);
    for i := 0 to |DangerousPatterns|
      invariant forall j :: 0 <= j < i ==> !Contains(lowered, DangerousPatterns[j])
    {
      if Contains(lowered, DangerousPatterns[i]) {
        return false;
      }
    }
    return true;
  }

  /** `strip()` leaves nothing exactly when every character is whitespace. */
  lemma StripEmptyIffAllSpace(s: string)
    ensures Strip(s) == [] <==> forall i :: 0 <= i < |s| ==> IsSpace(s[i])
  {
    var start := StripIsInfix(s);
    if Strip(s) != [] {
      assert !IsSpace(s[start]);
    }
  }

  /** Validation ignores letter case: two prompts that lower-case alike are
      accepted or refused together. */
  lemma ValidPromptIgnoresCase(p: string, q: string)
    requires Lower(p) == Lower(q)
    ensures ValidPrompt(p) <==> ValidPrompt(q)
  {
    assert |p| == |q|;
    StripEmptyIffAllSpace(p);
    StripEmptyIffAllSpace(q);
    forall i | 0 <= i < |p|
      ensures IsSpace(p[i]) <==> IsSpace(q[i])
    {
      LowerAt(p);
      LowerAt(q);
      LowerCharFacts(p[i]);
      LowerCharFacts(q[i]);
      assert LowerChar(p[i]) == Lower(p)[i] == Lower(q)[i] == LowerChar(q[i]);
    }
  }

  /** A prompt that starts with "You Are Now", in any case, is refused. */
  lemma ImpersonationRefused(p: string)
    requires |p| >= 11 && Lower(p[..11]) == "you are now"
    ensures !ValidPrompt(p)
  {
    var lowered := Lower(p);
    LowerAt(p);
    LowerAt(p[..11]);
    assert lowered[..11] == Lower(p[..11]);
    assert OccursAt(lowered, DangerousPatterns[3], 0);
    ContainsAt(lowered, DangerousPatterns[3], 0);
  }

  /** Prompt resolution: the chat's explicit prompt, else the text of its
      predefined role, else the default prompt. */
  function ResolvePrompt(explicit: Option<string>, role: Option<string>,
                         roles: map<string, string>, default: string): (p: string)
    ensures explicit.Some? ==> p == explicit.value
    ensures explicit == None && role.Some? && role.value in roles && role.value != [] ==> p == roles[role.value]
    ensures explicit == None && (role == None || role.value !in roles || role.value == []) ==> p == default
  {
    if explicit.Some? then explicit.value
    else if role.Some? && role.value != [] && role.value in roles then roles[role.value]
    else default
  }

  /** With only validated explicit prompts and non-empty persona and
      default texts, the resolved prompt is never empty, so the payload
      always opens with a system message. */
  lemma ResolvedPromptNonEmpty(explicit: Option<string>, role: Option<string>,
                               roles: map<string, string>, default: string)
    requires explicit.Some? ==> ValidPrompt(explicit.value)
    requires default != [] && forall k :: k in roles ==> roles[k] != []
    ensures ResolvePrompt(explicit, role, roles, default) != []
  {
    if explicit.Some? {
      assert |Strip(explicit.value)| <= |explicit.value|;
    }
  }

  /** The bot's own persona and default texts are non-empty and none of
      them is a persona key of the empty name. */
  lemma BuiltInTextsNonEmpty()
    ensures DefaultSystemPrompt != []
    ensures forall k :: k in PredefinedRoles ==> PredefinedRoles[k] != []
    ensures "" !in PredefinedRoles && "custom" !in PredefinedRoles
  {
    forall k | k in PredefinedRoles
      ensures PredefinedRoles[k] != []
    {
      assert k == "философ" || k == "психолог" || k == "быдло" || k == "астролог";
    }
    assert "custom" !in PredefinedRoles;
  }

  /** `get_available_roles`: the persona keys. */
  function AvailableRoles(): (r: seq<string>)
    ensures forall k :: k in r <==> k in PredefinedRoles
  {
    RoleKeys
  }

  // ----- Payload -----

  /** A setting read as text: `s.get(key) or default`, lower-cased. */
  function SettingText(s: Settings, key: string, default: string): string {
    if key in s && s[key].Str? && s[key].text != [] then Lower(s[key].text) else Lower(default)
  }

  /** The language and verbosity directives for the chat's settings. */
  function Directives(lang: string, verbosity: string): seq<string> {
    (if lang == "ru" then [RussianDirective] else if lang == "en" then [EnglishDirective] else [])
    + (if verbosity == "short" then [ShortDirective] else if verbosity == "long" then [LongDirective] else [])
  }

  /** The directive text: the directives one per line, stripped. */
  function PreferenceText(lang: string, verbosity: string): string {
    Strip(Join(Directives(lang, verbosity), "\n"))
  }

  /** Each directive is non-empty and has no whitespace at either end. */
  lemma DirectiveEnds(x: string)
    requires x == RussianDirective || x == EnglishDirective || x == ShortDirective || x == LongDirective
    ensures x != [] && !IsSpace(x[0]) && !IsSpace(x[|x| - 1])
  {
    if x == RussianDirective {
      assert x[0] == 'О' && x[|x| - 1] == '.';
    } else if x == EnglishDirective {
      assert x[0] == 'A' && x[|x| - 1] == '.';
    } else if x == ShortDirective {
      assert x[0] == 'П' && x[|x| - 1] == '.';
    } else {
      assert x[0] == 'П' && x[|x| - 1] == '.';
    }
  }

  lemma JoinTwo(x: string, y: string, sep: string)
    ensures Join([x, y], sep) == x + sep + y
  {
    assert [x, y][1..] == [y];
  }

  /** Directives are added exactly for `ru`/`en` and `short`/`long`; one
      directive stands alone, two are separated by a line break. */
  lemma PreferenceTextCases(lang: string, verbosity: string)
    ensures PreferenceText(lang, verbosity) == [] <==>
              lang != "ru" && lang != "en" && verbosity != "short" && verbosity != "long"
    ensures lang == "ru" && verbosity == "normal" ==> PreferenceText(lang, verbosity) == RussianDirective
    ensures lang == "auto" && verbosity == "long" ==> PreferenceText(lang, verbosity) == LongDirective
    ensures lang == "en" && verbosity == "short" ==>
              PreferenceText(lang, verbosity) == EnglishDirective + "\n" + ShortDirective
  {
    var d := Directives(lang, verbosity);
    var joined := Join(d, "\n");
    if |d| == 1 {
      assert joined == d[0];
      DirectiveEnds(d[0]);
      StripUnchanged(joined);
    } else if |d| == 2 {
      assert d == [d[0], d[1]];
      JoinTwo(d[0], d[1], "\n");
      DirectiveEnds(d[0]);
      DirectiveEnds(d[1]);
      assert joined[0] == d[0][0];
      assert joined[|joined| - 1] == d[1][|d[1]| - 1];
      StripUnchanged(joined);
    }
  }

  /** The system message text: the resolved prompt and the directives,
      separated by a blank line when both are present. */
  function ComposePrompt(current: string, pref: string): (r: string)
    ensures r == [] <==> current == [] && pref == []
    ensures StartsWith(r, current)
    ensures EndsWith(r, pref)
  {
    if current != [] && pref != [] then
      var r := current + "\n\n" + pref;
      assert r[..|current|] == current;
      assert r[|r| - |pref|..] == pref;
      r
    else if current != [] then current
    else pref
  }

  /** The display label of an author: the name, else `user-<id>` with the
      dashes at either end stripped, then ` (@username)` when there is one. */
  function AuthorLabel(author: Option<Author>): (shown: string)
    ensures shown != []
  {
    var name :=
      if author.Some? && TruthyStr(author.value.name) then author.value.name.value
      else StripChar("user-" + (if author.Some? && author.value.id.Some? then IntToString(author.value.id.value) else ""), '-');
    assert name != [] by {
      if !(author.Some? && TruthyStr(author.value.name)) {
        UserLabelNonEmpty(if author.Some? && author.value.id.Some? then IntToString(author.value.id.value) else "");
      }
    }
    if author.Some? && TruthyStr(author.value.username) then name + " (@" + author.value.username.value + ")"
    else name
  }

  /** `"user-" + x` stripped of dashes always keeps the `user` part. */
  lemma UserLabelNonEmpty(x: string)
    ensures StartsWith(StripChar("user-" + x, '-'), "user")
  {
    var s := "user-" + x;
    assert s[0] == 'u';
    StripCharKeepsHead(s, '-');
  }

  /** Stripping a character the text does not start with removes only a
      suffix. */
  lemma {:induction false} StripCharKeepsHead(s: string, c: char)
    requires |s| >= 4 && s[0] != c && s[1] != c && s[2] != c && s[3] != c
    ensures StartsWith(StripChar(s, c), s[..4])
    decreases |s|
  {
    if s[|s| - 1] == c {
      var t := s[..|s| - 1];
      assert t[..4] == s[..4];
      StripCharKeepsHead(t, c);
    } else {
      assert StripChar(s, c) == s;
    }
  }

  /** The rendering of one history entry: nothing for a plain system entry,
      the author label and cleaned text for a user entry, the entry's own
      text otherwise. */
  function RenderEntry(e: Entry): seq<ApiMessage> {
    if e.role == "system" && !e.isImageContext then []
    else if e.role == "user" then [ApiMessage("user", AuthorLabel(e.author) + ": " + CleanedContent(e.content))]
    else [ApiMessage(e.role, e.content)]
  }

  /** The history part of the payload, entry by entry. */
  function RenderHistory(h: seq<Entry>): seq<ApiMessage>
    decreases |h|
  {
    if h == [] then [] else RenderHistory(h[..|h| - 1]) + RenderEntry(h[|h| - 1])
  }

  /** Rendering distributes over concatenation: the payload is the entries'
      renderings laid end to end, in history order. */
  lemma {:induction false} RenderHistoryAppend(a: seq<Entry>, b: seq<Entry>)
    ensures RenderHistory(a + b) == RenderHistory(a) + RenderHistory(b)
    decreases |b|
  {
    if b == [] {
      assert a + b == a;
    } else {
      assert (a + b)[..|a + b| - 1] == a + b[..|b| - 1];
      RenderHistoryAppend(a, b[..|b| - 1]);
    }
  }

  /** What one entry turns into: plain system entries vanish, image-context
      entries pass through, user entries carry their author label. */
  lemma RenderSingle(e: Entry)
    ensures RenderHistory([e]) == RenderEntry(e)
    ensures RenderHistory([e]) == [] <==> e.role == "system" && !e.isImageContext
    ensures e.role == "system" && e.isImageContext ==> RenderHistory([e]) == [ApiMessage("system", e.content)]
    ensures e.role == "user" ==>
              |RenderHistory([e])| == 1 && RenderHistory([e])[0].role == "user"
              && StartsWith(RenderHistory([e])[0].content, AuthorLabel(e.author) + ": ")
  {
    assert [e][..0] == [];
    if e.role == "user" {
      var m := AuthorLabel(e.author) + ": " + CleanedContent(e.content);
      assert m[..|AuthorLabel(e.author) + ": "|] == AuthorLabel(e.author) + ": ";
    }
  }

  /** The leading system message: present exactly when the composed text
      is non-empty, so always when the resolved prompt is. */
  function SystemHeader(prompt: string, s: Settings): (hdr: seq<ApiMessage>)
    ensures |hdr| <= 1
    ensures prompt != [] ==> |hdr| == 1 && hdr[0].role == "system" && StartsWith(hdr[0].content, prompt)
  {
    var text := ComposePrompt(prompt, PreferenceText(SettingText(s, "lang", "auto"), SettingText(s, "verbosity", "normal")));
    if text != [] then [ApiMessage("system", text)] else []
  }

  /** The whole payload for a resolved prompt, chat settings and history. */
  function ApiPayload(prompt: string, s: Settings, h: seq<Entry>): (msgs: seq<ApiMessage>)
    ensures prompt != [] ==>
              |msgs| > 0 && msgs[0].role == "system" && StartsWith(msgs[0].content, prompt)
              && msgs[1..] == RenderHistory(h)
  {
    SystemHeader(prompt, s) + RenderHistory(h)
  }

  // ----- Audio cleanup -----

  /** The first indicator, in list order, that occurs in `lowered`. */
  function FirstIndicator(lowered: string, indicators: seq<string>): (r: Option<string>)
    ensures r.Some? ==> Contains(lowered, r.value)
    decreases |indicators|
  {
    if indicators == [] then None
    else if Contains(lowered, indicators[0]) then Some(indicators[0])
    else FirstIndicator(lowered, indicators[1..])
  }

  /** The indicator found is the first of the list that occurs, and none
      is found exactly when none occurs. */
  lemma {:induction false} FirstIndicatorIsFirst(lowered: string, indicators: seq<string>) returns (i: int)
    ensures FirstIndicator(lowered, indicators) == None <==>
              forall j :: 0 <= j < |indicators| ==> !Contains(lowered, indicators[j])
    ensures FirstIndicator(lowered, indicators).Some? ==>
              0 <= i < |indicators| && indicators[i] == FirstIndicator(lowered, indicators).value
              && forall j :: 0 <= j < i ==> !Contains(lowered, indicators[j])
    decreases |indicators|
  {
    if indicators == [] {
      i := 0;
    } else if Contains(lowered, indicators[0]) {
      i := 0;
    } else {
      var k := FirstIndicatorIsFirst(lowered, indicators[1..]);
      i := k + 1;
      forall j | 0 <= j < |indicators|
        ensures j >= 1 ==> indicators[j] == indicators[1..][j - 1]
      {
      }
    }
  }

  /** What is left of the content after the indicator at `idx`: the rest
      stripped, then one leading colon dropped and stripped again. */
  function TextAfter(content: string, idx: nat, indicator: string): (r: string)
    requires idx + |indicator| <= |content|
    ensures |r| <= |content| - (idx + |indicator|)
  {
    var rest := Strip(content[idx + |indicator|..]);
    if StartsWith(rest, ":") then Strip(rest[1..]) else rest
  }

  /** The cleanup for a list of indicators: drop everything up to and
      including the first indicator found (in list order, matched on the
      lower-cased text), then one leading colon, stripping as it goes. */
  function CleanedWith(content: string, indicators: seq<string>): (r: string)
    ensures |r| <= |content|
    ensures r == [] || (!IsSpace(r[0]) && !IsSpace(r[|r| - 1]))
  {
    if content == [] then content
    else
      var lowered := Lower(content);
      match FirstIndicator(lowered, indicators)
      case None => Strip(content)
      case Some(indicator) => Strip(TextAfter(content, Find(lowered, indicator), indicator))
  }

  /** `_clean_user_content`, with the bot's audio indicators. */
  function CleanedContent(content: string): string {
    CleanedWith(content, AudioIndicators)
  }

  /** Without any indicator the content is only stripped; with one, the
      result comes from the text after the indicator's first occurrence. */
  lemma CleanedWithCases(content: string, indicators: seq<string>)
    ensures FirstIndicator(Lower(content), indicators) == None ==> CleanedWith(content, indicators) == Strip(content)
    ensures FirstIndicator(Lower(content), indicators).Some? ==>
              var ind := FirstIndicator(Lower(content), indicators).value;
              |CleanedWith(content, indicators)| <= |content| - (Find(Lower(content), ind) + |ind|)
  {
    if content == [] {
      assert Lower(content) == [];
      assert Strip(content) == [];
    }
  }

  /** The search loop of `_clean_user_content`: the first indicator, in
      list order, present in the lower-cased text. */
  method FindIndicator(lowered: string, indicators: seq<string>) returns (found: Option<string>)
    ensures found == FirstIndicator(lowered, indicators)
  {
    for i := 0 to |indicators|
      invariant FirstIndicator(lowered, indicators) == FirstIndicator(lowered, indicators[i..])
    {
      assert indicators[i..][1..] == indicators[i + 1..];
      if Contains(lowered, indicators[i]) {
        return Some(indicators[i]);
      }
    }
    assert indicators[|indicators|..] == [];
    return None;
  }

  /** The body of `_clean_user_content` for a list of indicators. */
  method CleanWith(content: string, indicators: seq<string>) returns (r: string)
    ensures r == CleanedWith(content, indicators)
  {
    if content == [] {
      return content;
    }
    var lowered := Lower(content);
    var found := FindIndicator(lowered, indicators);
    r := content;
    if found.Some? {
      var indicator := found.value;
      var idx := Find(lowered, indicator);
      r := Strip(content[idx + |indicator|..]);
      if StartsWith(r, ":") {
        r := Strip(r[1..]);
      }
    }
    return Strip(r);
  }

  /** `_clean_user_content`. */
  method CleanUserContent(content: string) returns (r: string)
    ensures r == CleanedContent(content)
  {
    r := CleanWith(content, AudioIndicators);
  }

  // ----- Context limits and settings -----

  function Clamp(x: int, lo: int, hi: int): int
    requires lo <= hi
  {
    if x < lo then lo else if x > hi then hi else x
  }

  /** `int(v)` for a setting value; `None` where it raises. */
  function SettingInt(v: SettingValue): Option<int> {
    match v
    case Int(n) => Some(n)
    case Str(t) => ParseInt(t)
  }

  /** The effective context limit: an integer `context_limit` in the chat's
      settings, else the chat's override, else the global default. */
  function EffectiveLimit(settings: Option<Settings>, override: Option<int>, global: int): int {
    if settings.Some? && "context_limit" in settings.value && settings.value["context_limit"].Int? then
      settings.value["context_limit"].number
    else if override.Some? then override.value
    else global
  }

  /** The limit is looked up in priority order, and it stays in [1, 500]
      when every stored value does. */
  lemma EffectiveLimitOrder(settings: Option<Settings>, override: Option<int>, global: int)
    ensures settings.Some? && "context_limit" in settings.value && settings.value["context_limit"].Int? ==>
              EffectiveLimit(settings, override, global) == settings.value["context_limit"].number
    ensures (settings == None || "context_limit" !in settings.value || !settings.value["context_limit"].Int?)
            ==> EffectiveLimit(settings, override, global) == (if override.Some? then override.value else global)
    ensures (settings.Some? ==> LimitSettingOk(settings.value))
            && (override.Some? ==> 1 <= override.value <= MaxContextLimit)
            && 1 <= global <= MaxContextLimit
            ==> 1 <= EffectiveLimit(settings, override, global) <= MaxContextLimit
  {
  }

  /** A stored `context_limit` setting, when integer, lies in [1, 500]. */
  predicate LimitSettingOk(s: Settings) {
    "context_limit" in s && s["context_limit"].Int? ==> 1 <= s["context_limit"].number <= MaxContextLimit
  }

  /** One keyword argument of `update_settings` applied to the chat's
      settings: unknown keys are ignored, `context_limit` is parsed and
      clamped (an unparsable value is skipped), other keys are stored. */
  function ApplySetting(current: Settings, key: string, v: SettingValue): Settings {
    if key !in SettingKeys then current
    else if key == "context_limit" then
      match SettingInt(v)
      case None => current
      case Some(n) => current[key := Int(Clamp(n, 1, MaxContextLimit))]
    else current[key := v]
  }

  /** All keyword arguments, in order. */
  function ApplySettings(current: Settings, updates: seq<(string, SettingValue)>): Settings
    decreases |updates|
  {
    if updates == [] then current
    else
      var last := updates[|updates| - 1];
      ApplySetting(ApplySettings(current, updates[..|updates| - 1]), last.0, last.1)
  }

  /** The limit `update_settings` mirrors into the per-chat override: the
      clamped value of the last parsable `context_limit` argument. */
  function MirroredLimit(updates: seq<(string, SettingValue)>): (r: Option<int>)
    ensures r.Some? ==> 1 <= r.value <= MaxContextLimit
    decreases |updates|
  {
    if updates == [] then None
    else
      var last := updates[|updates| - 1];
      if last.0 == "context_limit" && SettingInt(last.1).Some? then Some(Clamp(SettingInt(last.1).value, 1, MaxContextLimit))
      else MirroredLimit(updates[..|updates| - 1])
  }

  /** Keys outside the defaults are never touched. */
  lemma {:induction false} ApplySettingsIgnoresUnknown(current: Settings, updates: seq<(string, SettingValue)>, key: string)
    requires key !in SettingKeys
    ensures key in ApplySettings(current, updates) <==> key in current
    ensures key in current ==> ApplySettings(current, updates)[key] == current[key]
    decreases |updates|
  {
    if updates != [] {
      ApplySettingsIgnoresUnknown(current, updates[..|updates| - 1], key);
    }
  }

  /** The stored limit stays an integer in [1, 500], and it equals the
      mirrored override whenever one was written. */
  lemma {:induction false} ApplySettingsClampsLimit(current: Settings, updates: seq<(string, SettingValue)>)
    requires LimitSettingOk(current)
    ensures LimitSettingOk(ApplySettings(current, updates))
    ensures MirroredLimit(updates).Some? ==>
              "context_limit" in ApplySettings(current, updates)
              && ApplySettings(current, updates)["context_limit"] == Int(MirroredLimit(updates).value)
    decreases |updates|
  {
    if updates != [] {
      ApplySettingsClampsLimit(current, updates[..|updates| - 1]);
    }
  }

  /** `get_settings`: the defaults overlaid with the chat's own settings. */
  lemma MergedSettings(limit: int, own: Settings, key: string)
    ensures key in DefaultSettings(limit) + own <==> key in SettingKeys || key in own
    ensures key in own ==> (DefaultSettings(limit) + own)[key] == own[key]
    ensures key !in own && key in SettingKeys ==> (DefaultSettings(limit) + own)[key] == DefaultSettings(limit)[key]
  {
  }

  /** The usage counters after one more message of role `role` while the
      chat's persona is `persona`. */
  function CountMessage(stats: UsageStats, role: string, persona: string): (r: UsageStats)
    ensures r.total == stats.total + 1
    ensures r.user == stats.user + (if role == "user" then 1 else 0)
    ensures r.assistant == stats.assistant + (if role == "assistant" then 1 else 0)
    ensures persona in r.rolesUsed
    ensures r.rolesUsed[persona] == (if persona in stats.rolesUsed then stats.rolesUsed[persona] else 0) + 1
  {
    var used := if persona in stats.rolesUsed then stats.rolesUsed[persona] else 0;
    UsageStats(stats.total + 1,
               stats.user + (if role == "user" then 1 else 0),
               stats.assistant + (if role == "assistant" then 1 else 0),
               stats.rolesUsed[persona := used + 1])
  }

  /** The history loop of `build_api_messages`: each entry's rendering
      appended to `msgs`, in history order. */
  method AppendHistory(header: seq<ApiMessage>, h: seq<Entry>) returns (msgs: seq<ApiMessage>)
    ensures msgs == header + RenderHistory(h)
  {
    msgs := header;
    for i := 0 to |h|
      invariant msgs == header + RenderHistory(h[..i])
    {
      assert h[..i + 1][..i] == h[..i];
      var e := h[i];
      if e.role == "system" && !e.isImageContext {
        continue;
      }
      var text: string;
      if e.role == "user" {
        var who := AuthorLabel(e.author);
        var clean := CleanUserContent(e.content);
        text := who + ": " + clean;
      } else {
        text := e.content;
      }
      msgs := msgs + [ApiMessage(e.role, text)];
    }
    assert h[..|h|] == h;
  }

  const NoUsage: UsageStats := UsageStats(0, 0, 0, map[])

  // ----- Generating flags -----

  /** The kinds of operation running in a chat. */
  function KindsOf(flags: map<int, set<string>>, chat: int): set<string> {
    if chat in flags then flags[chat] else {}
  }

  /** The flags after `set_generating(chat, status, kind)`. */
  function SetKind(flags: map<int, set<string>>, chat: int, status: bool, kind: string): map<int, set<string>> {
    flags[chat := if status then KindsOf(flags, chat) + {kind} else KindsOf(flags, chat) - {kind}]
  }

  /** Flags are independent per chat and kind: only the named kind of the
      named chat takes the new status. */
  lemma SetKindIndependent(flags: map<int, set<string>>, chat: int, status: bool, kind: string, c: int, k: string)
    ensures k in KindsOf(SetKind(flags, chat, status, kind), c) <==>
              if c == chat && k == kind then status else k in KindsOf(flags, c)
  {
  }

  class ContextManager {
    /** History per chat. */
    var contexts: map<int, seq<Entry>>
    /** The kinds of operation ("text", "image", "voice", ...) running per chat. */
    var generatingFlags: map<int, set<string>>
    /** Telegram message ids to delete after a successful answer. */
    var cleanupMessageIds: map<int, seq<int>>
    var autoAnalyzeSettings: map<int, bool>
    /** Multi-step states per chat, by state kind. */
    var userStates: map<int, map<string, StateData>>
    var forceStopFlags: map<int, bool>
    var chatSystemPrompts: map<int, string>
    var chatRoles: map<int, string>
    /** The default prompt and the persona texts by key. */
    const defaultSystemPrompt: string
    const predefinedRoles: map<string, string>
    /** The global history limit (the configured `context_limit`). */
    const contextLimit: int
    var chatContextLimits: map<int, int>
    var usageStats: map<int, UsageStats>
    var chatSettings: map<int, Settings>

    /** A chat with a running operation has a history slot, so creating the
        slot can never drop a running flag. */
    ghost predicate FlagsValid()
      reads this`contexts, this`generatingFlags
    {
      && (forall c :: c in contexts ==> c in generatingFlags)
      && (forall c :: c in generatingFlags && generatingFlags[c] != {} ==> c in contexts)
    }

    /** Every stored limit lies in [1, 500] and the global one in [1, 100]. */
    ghost predicate LimitsValid()
      reads this`chatContextLimits, this`chatSettings
    {
      1 <= contextLimit <= 100
      && (forall c :: c in chatContextLimits ==> 1 <= chatContextLimits[c] <= MaxContextLimit)
      && (forall c :: c in chatSettings ==> LimitSettingOk(chatSettings[c]))
    }

    /** Every explicit prompt passed validation. */
    ghost predicate PromptsValid()
      reads this`chatSystemPrompts
    {
      forall c :: c in chatSystemPrompts ==> ValidPrompt(chatSystemPrompts[c])
    }

    /** The built-in texts are non-empty, and neither the empty name nor
        "custom" is a persona key. */
    ghost predicate TextsValid() {
      defaultSystemPrompt != []
      && (forall k :: k in predefinedRoles ==> predefinedRoles[k] != [])
      && "" !in predefinedRoles && "custom" !in predefinedRoles
    }

    ghost predicate Valid()
      reads this
    {
      FlagsValid() && LimitsValid() && PromptsValid() && TextsValid()
    }

    /** A store with the configured global limit, which the settings
        validator keeps in [1, 100]. */
    constructor(limit: int)
      requires 1 <= limit <= 100
      ensures Valid() && contextLimit == limit
      ensures defaultSystemPrompt == DefaultSystemPrompt && predefinedRoles == PredefinedRoles
      ensures contexts == map[] && generatingFlags == map[] && cleanupMessageIds == map[]
      ensures autoAnalyzeSettings == map[] && userStates == map[] && forceStopFlags == map[]
      ensures chatSystemPrompts == map[] && chatRoles == map[] && chatContextLimits == map[]
      ensures usageStats == map[] && chatSettings == map[]
    {
      contexts, generatingFlags, cleanupMessageIds := map[], map[], map[];
      autoAnalyzeSettings, userStates, forceStopFlags := map[], map[], map[];
      chatSystemPrompts, chatRoles := map[], map[];
      defaultSystemPrompt, predefinedRoles := DefaultSystemPrompt, PredefinedRoles;
      contextLimit := limit;
      chatContextLimits, usageStats, chatSettings := map[], map[], map[];
      BuiltInTextsNonEmpty();
    }

    function History(chat: int): seq<Entry>
      reads this`contexts
    {
      if chat in contexts then contexts[chat] else []
    }

    function Kinds(chat: int): set<string>
      reads this`generatingFlags
    {
      KindsOf(generatingFlags, chat)
    }

    /** `init_context`: a new chat gets an empty history and no flags. */
    method InitContext(chat: int)
      requires Valid()
      modifies this`contexts, this`generatingFlags
      ensures Valid()
      ensures contexts == if chat in old(contexts) then old(contexts) else old(contexts)[chat := []]
      ensures generatingFlags == if chat in old(contexts) then old(generatingFlags) else old(generatingFlags)[chat := {}]
      ensures History(chat) == old(History(chat))
      ensures forall c :: Kinds(c) == old(Kinds(c))
    {
      if chat !in contexts {
        contexts := contexts[chat := []];
        generatingFlags := generatingFlags[chat := {}];
      }
    }

    /** `reset_context`: an existing history is emptied and the chat's
        flags are dropped. */
    method ResetContext(chat: int)
      requires Valid()
      modifies this`contexts, this`generatingFlags
      ensures Valid()
      ensures contexts == if chat in old(contexts) then old(contexts)[chat := []] else old(contexts)
      ensures generatingFlags == old(generatingFlags)[chat := {}]
    {
      if chat in contexts {
        contexts := contexts[chat := []];
      }
      generatingFlags := generatingFlags[chat := {}];
    }

    /** `get_context_limit`. */
    function GetContextLimit(chat: int): int
      reads this`chatSettings, this`chatContextLimits
    {
      EffectiveLimit(if chat in chatSettings then Some(chatSettings[chat]) else None,
                     if chat in chatContextLimits then Some(chatContextLimits[chat]) else None,
                     contextLimit)
    }

    /** `add_message`: the entry goes last, the history is cut to the
        chat's limit, and the usage counters move; no flag changes. */
    method AddMessage(chat: int, role: string, content: string, author: Option<Author>, now: real)
      requires Valid()
      modifies this`contexts, this`generatingFlags, this`usageStats
      ensures Valid()
      ensures contexts == old(contexts)[chat := TrimToLimit(old(History(chat)) + [Entry(role, content, now, author, false)], GetContextLimit(chat))]
      ensures forall c :: Kinds(c) == old(Kinds(c))
      ensures usageStats == old(usageStats)[chat := CountMessage(
                if chat in old(usageStats) then old(usageStats)[chat] else NoUsage, role, GetRole(chat))]
    {
      InitContext(chat);
      var entry := Entry(role, content, now, author, false);
      var h := contexts[chat] + [entry];
      var limit := GetContextLimit(chat);
      if limit > 0 && |h| > limit {
        h := h[|h| - limit..];
      }
      contexts := contexts[chat := h];
      UpdateUsageStats(chat, role);
    }

    /** `_update_usage_stats` without the activity timestamp. */
    method UpdateUsageStats(chat: int, role: string)
      modifies this`usageStats
      ensures usageStats == old(usageStats)[chat := CountMessage(
                if chat in old(usageStats) then old(usageStats)[chat] else NoUsage, role, GetRole(chat))]
    {
      var stats := if chat in usageStats then usageStats[chat] else NoUsage;
      usageStats := usageStats[chat := CountMessage(stats, role, GetRole(chat))];
    }

    /** `get_context`: the chat's history (a value, so later changes to
        the store never show through it). */
    method GetContext(chat: int) returns (h: seq<Entry>)
      requires Valid()
      modifies this`contexts, this`generatingFlags
      ensures Valid()
      ensures h == old(History(chat)) && History(chat) == h
      ensures contexts == if chat in old(contexts) then old(contexts) else old(contexts)[chat := []]
      ensures generatingFlags == if chat in old(contexts) then old(generatingFlags) else old(generatingFlags)[chat := {}]
      ensures forall c :: Kinds(c) == old(Kinds(c))
    {
      InitContext(chat);
      h := contexts[chat];
    }

    /** `get_context_size`. */
    method GetContextSize(chat: int) returns (n: nat)
      requires Valid()
      modifies this`contexts, this`generatingFlags
      ensures Valid()
      ensures n == |old(History(chat))|
      ensures contexts == if chat in old(contexts) then old(contexts) else old(contexts)[chat := []]
      ensures generatingFlags == if chat in old(contexts) then old(generatingFlags) else old(generatingFlags)[chat := {}]
      ensures forall c :: Kinds(c) == old(Kinds(c))
    {
      InitContext(chat);
      n := |contexts[chat]|;
    }

    /** `get_settings`: the defaults overlaid with the chat's settings. */
    function GetSettings(chat: int): Settings
      reads this`chatSettings
    {
      DefaultSettings(contextLimit) + (if chat in chatSettings then chatSettings[chat] else map[])
    }

    /** `get_system_prompt`. */
    function GetSystemPrompt(chat: int): string
      reads this`chatSystemPrompts, this`chatRoles
    {
      ResolvePrompt(if chat in chatSystemPrompts then Some(chatSystemPrompts[chat]) else None,
                    if chat in chatRoles then Some(chatRoles[chat]) else None,
                    predefinedRoles, defaultSystemPrompt)
    }

    /** `build_api_messages`: the system message, then the rendered history,
        appended one entry at a time. */
    method BuildApiMessages(chat: int) returns (msgs: seq<ApiMessage>)
      requires Valid()
      modifies this`contexts, this`generatingFlags
      ensures Valid()
      ensures msgs == ApiPayload(GetSystemPrompt(chat), GetSettings(chat), old(History(chat)))
      ensures contexts == if chat in old(contexts) then old(contexts) else old(contexts)[chat := []]
      ensures generatingFlags == if chat in old(contexts) then old(generatingFlags) else old(generatingFlags)[chat := {}]
      ensures |msgs| > 0 && msgs[0].role == "system" && StartsWith(msgs[0].content, GetSystemPrompt(chat))
      ensures forall c :: Kinds(c) == old(Kinds(c))
    {
      InitContext(chat);
      msgs := SystemHeader(GetSystemPrompt(chat), GetSettings(chat));
      msgs := AppendHistory(msgs, contexts[chat]);
      ResolvedPromptNonEmpty(if chat in chatSystemPrompts then Some(chatSystemPrompts[chat]) else None,
                             if chat in chatRoles then Some(chatRoles[chat]) else None,
                             predefinedRoles, defaultSystemPrompt);
    }

    /** `set_generating` (after `init_context`): only the named kind of the
        named chat changes. */
    method SetGenerating(chat: int, status: bool, kind: string)
      requires Valid()
      modifies this`contexts, this`generatingFlags
      ensures Valid()
      ensures contexts == if chat in old(contexts) then old(contexts) else old(contexts)[chat := []]
      ensures generatingFlags == SetKind(old(generatingFlags), chat, status, kind)
      ensures IsGenerating(chat, kind) == status
    {
      InitContext(chat);
      if status {
        generatingFlags := generatingFlags[chat := generatingFlags[chat] + {kind}];
      } else {
        generatingFlags := generatingFlags[chat := generatingFlags[chat] - {kind}];
      }
    }

    /** `is_generating`. */
    predicate IsGenerating(chat: int, kind: string)
      reads this`generatingFlags
    {
      kind in Kinds(chat)
    }

    /** `is_any_generating`: true exactly when some kind is running. */
    predicate IsAnyGenerating(chat: int)
      reads this`generatingFlags
      ensures IsAnyGenerating(chat) <==> exists k :: IsGenerating(chat, k)
    {
      var kinds := Kinds(chat);
      if kinds != {} then
        var k :| k in kinds;
        assert IsGenerating(chat, k);
        true
      else false
    }

    /** `check_rate_limit`: delegates to the shared limiter with the given
        interval and the configured per-minute ceiling. */
    method CheckRateLimit(limiter: RateLimiting.RateLimiter, user: int, chat: Option<int>,
                          minInterval: real, cfg: RateLimiting.Limits, now: real) returns (allowed: bool)
      modifies limiter`userRequests, limiter`chatRequests
      ensures allowed == RateLimiting.Admits(old(limiter.UserRequests(user)), old(limiter.ChatRequests(chat)),
                                             chat, Some(minInterval), None, cfg, now)
      ensures limiter.userRequests == old(limiter.userRequests)[user :=
                RateLimiting.Prune(old(limiter.UserRequests(user)), now - RateLimiting.WindowSeconds)]
      ensures limiter.chatRequests ==
                if TruthyInt(chat)
                   && RateLimiting.UserAdmits(old(limiter.UserRequests(user)),
                                              RateLimiting.EffectiveInterval(Some(minInterval), cfg),
                                              RateLimiting.EffectiveMax(None, cfg), now)
                then old(limiter.chatRequests)[chat.value :=
                       RateLimiting.Prune(old(limiter.ChatRequests(chat)), now - RateLimiting.WindowSeconds)]
                else old(limiter.chatRequests)
    {
      allowed := limiter.CheckRateLimit(user, chat, Some(minInterval), None, cfg, now);
    }

    /** `set_system_prompt`: `None` drops the explicit prompt; an invalid
        prompt raises and changes nothing; otherwise it is stored. Either
        successful way the role becomes "custom". */
    method SetSystemPrompt(chat: int, prompt: Option<string>) returns (r: Result<(), string>)
      requires Valid()
      modifies this`chatSystemPrompts, this`chatRoles
      ensures Valid()
      ensures r.Err? <==> prompt.Some? && !ValidPrompt(prompt.value)
      ensures r.Err? ==> r.error == InvalidPromptError
                         && chatSystemPrompts == old(chatSystemPrompts) && chatRoles == old(chatRoles)
      ensures r.Ok? ==> chatRoles == old(chatRoles)[chat := "custom"]
      ensures r.Ok? ==> chatSystemPrompts == (if prompt.Some? then old(chatSystemPrompts)[chat := prompt.value]
                                              else old(chatSystemPrompts) - {chat})
      ensures r.Ok? ==> GetSystemPrompt(chat) == (if prompt.Some? then prompt.value else defaultSystemPrompt)
    {
      if prompt == None {
        chatSystemPrompts := chatSystemPrompts - {chat};
      } else {
        var ok := ValidatePrompt(prompt.value);
        if !ok {
          return Err(InvalidPromptError);
        }
        chatSystemPrompts := chatSystemPrompts[chat := prompt.value];
      }
      chatRoles := chatRoles[chat := "custom"];
      return Ok(());
    }

    /** `reset_system_prompt`: back to the default prompt and role. */
    method ResetSystemPrompt(chat: int)
      requires Valid()
      modifies this`chatSystemPrompts, this`chatRoles
      ensures Valid()
      ensures chatSystemPrompts == old(chatSystemPrompts) - {chat}
      ensures chatRoles == old(chatRoles) - {chat}
      ensures GetSystemPrompt(chat) == defaultSystemPrompt && GetRole(chat) == "default"
    {
      chatSystemPrompts := chatSystemPrompts - {chat};
      chatRoles := chatRoles - {chat};
    }

    /** `set_role`: an unknown key raises and changes nothing; a known one
        is recorded and the explicit prompt is dropped so the persona's
        text applies. */
    method SetRole(chat: int, role: string) returns (r: Result<(), string>)
      requires Valid()
      modifies this`chatSystemPrompts, this`chatRoles
      ensures Valid()
      ensures r.Err? <==> role !in predefinedRoles
      ensures r.Err? ==> r.error == UnknownRoleError
                         && chatSystemPrompts == old(chatSystemPrompts) && chatRoles == old(chatRoles)
      ensures r.Ok? ==> chatRoles == old(chatRoles)[chat := role] && chatSystemPrompts == old(chatSystemPrompts) - {chat}
      ensures r.Ok? ==> GetSystemPrompt(chat) == predefinedRoles[role] && GetRole(chat) == role
    {
      if role !in predefinedRoles {
        return Err(UnknownRoleError);
      }
      chatRoles := chatRoles[chat := role];
      chatSystemPrompts := chatSystemPrompts - {chat};
      return Ok(());
    }

    /** `get_role`. */
    function GetRole(chat: int): string
      reads this`chatRoles
    {
      if chat in chatRoles then chatRoles[chat] else "default"
    }

    /** `reset_role`: the explicit prompt, if any, stays. */
    method ResetRole(chat: int)
      modifies this`chatRoles
      ensures chatRoles == old(chatRoles) - {chat}
      ensures GetRole(chat) == "default"
    {
      chatRoles := chatRoles - {chat};
    }

    /** `add_image_context`: appends a flagged system entry and does not
        trim, so the history may exceed the limit until the next add or
        trim. */
    method AddImageContext(chat: int, analysis: string, now: real)
      requires Valid()
      modifies this`contexts, this`generatingFlags
      ensures Valid()
      ensures contexts == old(contexts)[chat := old(History(chat)) + [ImageContextEntry(analysis, now)]]
      ensures forall c :: Kinds(c) == old(Kinds(c))
    {
      InitContext(chat);
      contexts := contexts[chat := contexts[chat] + [ImageContextEntry(analysis, now)]];
    }

    /** `set_context_limit`: below 1 raises; larger values are lowered to
        500 and stored. */
    method SetContextLimit(chat: int, limit: int) returns (r: Result<(), string>)
      requires Valid()
      modifies this`chatContextLimits
      ensures Valid()
      ensures r.Err? <==> limit < 1
      ensures r.Err? ==> r.error == LimitTooSmallError && chatContextLimits == old(chatContextLimits)
      ensures r.Ok? ==> chatContextLimits == old(chatContextLimits)[chat := if limit > MaxContextLimit then MaxContextLimit else limit]
    {
      if limit < 1 {
        return Err(LimitTooSmallError);
      }
      var stored := if limit > MaxContextLimit then MaxContextLimit else limit;
      chatContextLimits := chatContextLimits[chat := stored];
      return Ok(());
    }

    /** `reset_context_limit`. */
    method ResetContextLimit(chat: int)
      requires Valid()
      modifies this`chatContextLimits
      ensures Valid()
      ensures chatContextLimits == old(chatContextLimits) - {chat}
    {
      chatContextLimits := chatContextLimits - {chat};
    }

    /** `trim_context`: cut the history to the current limit and report how
        many entries went. */
    method TrimContext(chat: int) returns (removed: nat)
      requires Valid()
      modifies this`contexts, this`generatingFlags
      ensures Valid()
      ensures contexts == old(contexts)[chat := TrimToLimit(old(History(chat)), GetContextLimit(chat))]
      ensures removed == |old(History(chat))| - |History(chat)|
      ensures forall c :: Kinds(c) == old(Kinds(c))
    {
      InitContext(chat);
      var limit := GetContextLimit(chat);
      var before := |contexts[chat]|;
      if limit > 0 && before > limit {
        contexts := contexts[chat := contexts[chat][before - limit..]];
      }
      var after := |contexts[chat]|;
      removed := if before - after > 0 then before - after else 0;
    }

    function CleanupIds(chat: int): seq<int>
      reads this`cleanupMessageIds
    {
      if chat in cleanupMessageIds then cleanupMessageIds[chat] else []
    }

    /** `add_cleanup_message`. */
    method AddCleanupMessage(chat: int, messageId: int)
      modifies this`cleanupMessageIds
      ensures cleanupMessageIds == old(cleanupMessageIds)[chat := old(CleanupIds(chat)) + [messageId]]
    {
      cleanupMessageIds := cleanupMessageIds[chat := CleanupIds(chat) + [messageId]];
    }

    /** `consume_cleanup_messages`: the ids in insertion order, leaving an
        empty list, so a second call at once yields nothing. */
    method ConsumeCleanupMessages(chat: int) returns (ids: seq<int>)
      modifies this`cleanupMessageIds
      ensures ids == old(CleanupIds(chat))
      ensures cleanupMessageIds == old(cleanupMessageIds)[chat := []]
      ensures CleanupIds(chat) == []
    {
      ids := CleanupIds(chat);
      cleanupMessageIds := cleanupMessageIds[chat := []];
    }

    /** `clear_cleanup_messages`: empties a list that exists. */
    method ClearCleanupMessages(chat: int)
      modifies this`cleanupMessageIds
      ensures cleanupMessageIds == if chat in old(cleanupMessageIds) then old(cleanupMessageIds)[chat := []] else old(cleanupMessageIds)
      ensures CleanupIds(chat) == []
    {
      if chat in cleanupMessageIds {
        cleanupMessageIds := cleanupMessageIds[chat := []];
      }
    }

    /** `get_cleanup_count`. */
    function GetCleanupCount(chat: int): nat
      reads this`cleanupMessageIds
    {
      |CleanupIds(chat)|
    }

    /** `update_settings`: applies the keyword arguments in order, mirrors
        each accepted limit into the per-chat override, stores the result
        and returns the merged settings. */
    method UpdateSettings(chat: int, updates: seq<(string, SettingValue)>) returns (merged: Settings)
      requires Valid()
      modifies this`chatSettings, this`chatContextLimits
      ensures Valid()
      ensures chatSettings == old(chatSettings)[chat := ApplySettings(
                if chat in old(chatSettings) then old(chatSettings)[chat] else map[], updates)]
      ensures chatContextLimits == (if MirroredLimit(updates).Some?
                                    then old(chatContextLimits)[chat := MirroredLimit(updates).value]
                                    else old(chatContextLimits))
      ensures merged == GetSettings(chat)
    {
      var start: Settings := if chat in chatSettings then chatSettings[chat] else map[];
      var current := start;
      for i := 0 to |updates|
        invariant current == ApplySettings(start, updates[..i])
        invariant chatContextLimits == (if MirroredLimit(updates[..i]).Some?
                                        then old(chatContextLimits)[chat := MirroredLimit(updates[..i]).value]
                                        else old(chatContextLimits))
        invariant chatSettings == old(chatSettings)
      {
        assert updates[..i + 1][..i] == updates[..i];
        var (key, v) := updates[i];
        if key in SettingKeys {
          if key == "context_limit" {
            var parsed := SettingInt(v);
            if parsed == None {
              continue;
            }
            var n := Clamp(parsed.value, 1, MaxContextLimit);
            current := current[key := Int(n)];
            chatContextLimits := chatContextLimits[chat := n];
          } else {
            current := current[key := v];
          }
        }
      }
      assert updates[..|updates|] == updates;
      ApplySettingsClampsLimit(start, updates);
      chatSettings := chatSettings[chat := current];
      merged := GetSettings(chat);
    }

    /** `is_auto_analyze_enabled`: the chat's switch, else the global one. */
    function IsAutoAnalyzeEnabled(chat: int): bool
      reads this`autoAnalyzeSettings
    {
      if chat in autoAnalyzeSettings then autoAnalyzeSettings[chat] else Config.AutoAnalyzeGeneratedImages
    }

    /** `set_auto_analyze`. */
    method SetAutoAnalyze(chat: int, enabled: bool)
      modifies this`autoAnalyzeSettings
      ensures autoAnalyzeSettings == old(autoAnalyzeSettings)[chat := enabled]
    {
      autoAnalyzeSettings := autoAnalyzeSettings[chat := enabled];
    }

    /** `toggle_auto_analyze`: flips the effective switch and returns it. */
    method ToggleAutoAnalyze(chat: int) returns (enabled: bool)
      modifies this`autoAnalyzeSettings
      ensures enabled == !old(IsAutoAnalyzeEnabled(chat))
      ensures autoAnalyzeSettings == old(autoAnalyzeSettings)[chat := enabled]
      ensures IsAutoAnalyzeEnabled(chat) == enabled
    {
      enabled := !IsAutoAnalyzeEnabled(chat);
      SetAutoAnalyze(chat, enabled);
    }

    /** `set_user_state`. */
    method SetUserState(chat: int, kind: string, data: StateData)
      modifies this`userStates
      ensures userStates == old(userStates)[chat := (if chat in old(userStates) then old(userStates)[chat] else map[])[kind := data]]
      ensures GetUserState(chat, kind) == Some(data)
    {
      var states := if chat in userStates then userStates[chat] else map[];
      userStates := userStates[chat := states[kind := data]];
    }

    /** `get_user_state`. */
    function GetUserState(chat: int, kind: string): Option<StateData>
      reads this`userStates
    {
      if chat in userStates && kind in userStates[chat] then Some(userStates[chat][kind]) else None
    }

    /** `has_user_state`. */
    predicate HasUserState(chat: int, kind: string)
      reads this`userStates
    {
      GetUserState(chat, kind).Some?
    }

    /** `clear_user_state`: one kind when a (non-empty) kind is given, all
        of the chat's states otherwise. */
    method ClearUserState(chat: int, kind: Option<string>)
      modifies this`userStates
      ensures chat !in old(userStates) ==> userStates == old(userStates)
      ensures chat in old(userStates) ==>
                userStates == old(userStates)[chat := if TruthyStr(kind) then old(userStates)[chat] - {kind.value} else map[]]
      ensures TruthyStr(kind) ==> !HasUserState(chat, kind.value)
      ensures !TruthyStr(kind) ==> forall k :: !HasUserState(chat, k)
    {
      if chat in userStates {
        if TruthyStr(kind) {
          userStates := userStates[chat := userStates[chat] - {kind.value}];
        } else {
          userStates := userStates[chat := map[]];
        }
      }
    }

    /** `set_force_stop`. */
    method SetForceStop(chat: int, stop: bool)
      modifies this`forceStopFlags
      ensures forceStopFlags == old(forceStopFlags)[chat := stop]
    {
      forceStopFlags := forceStopFlags[chat := stop];
    }

    /** `is_force_stop_requested`. */
    predicate IsForceStopRequested(chat: int)
      reads this`forceStopFlags
    {
      chat in forceStopFlags && forceStopFlags[chat]
    }

    /** `clear_force_stop`. */
    method ClearForceStop(chat: int)
      modifies this`forceStopFlags
      ensures forceStopFlags == old(forceStopFlags) - {chat}
      ensures !IsForceStopRequested(chat)
    {
      forceStopFlags := forceStopFlags - {chat};
    }

    /** `force_stop_all_operations`: the stop flag is raised, the image,
        text and voice operations are cleared (other kinds stay) and all of
        the chat's user states go. */
    method ForceStopAllOperations(chat: int)
      requires Valid()
      modifies this`forceStopFlags, this`contexts, this`generatingFlags, this`userStates
      ensures Valid()
      ensures forceStopFlags == old(forceStopFlags)[chat := true]
      ensures userStates == if chat in old(userStates) then old(userStates)[chat := map[]] else old(userStates)
      ensures contexts == if chat in old(contexts) then old(contexts) else old(contexts)[chat := []]
      ensures IsForceStopRequested(chat)
      ensures !IsGenerating(chat, "image") && !IsGenerating(chat, "text") && !IsGenerating(chat, "voice")
      ensures Kinds(chat) == old(Kinds(chat)) - {"image", "text", "voice"}
      ensures forall c :: c != chat ==> Kinds(c) == old(Kinds(c))
      ensures forall k :: !HasUserState(chat, k)
    {
      SetForceStop(chat, true);
      SetGenerating(chat, false, "image");
      SetGenerating(chat, false, "text");
      SetGenerating(chat, false, "voice");
      ClearUserState(chat, None);
    }
  }
}
