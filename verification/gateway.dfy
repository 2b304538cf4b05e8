/** The deterministic logic of the text-model gateway
    (src/services/pollinations_service.py): validation of an outgoing
    message list, with the in-place trimming of an over-long list; the
    clean-up of a transcription; the choice of reply text from the shape of
    the API's answer; and the messages built for image analysis, with the
    fallback that folds the system prompt into the user text. Every HTTP
    round trip is a parameter: the reply that came back, or an oracle from
    request to reply. */
module Gateway {
  import opened Wrappers
  import opened Text
  import opened Refusal

  // ----- Message validation -----

  /** One entry of the outgoing list; `None` is a missing key. */
  datatype ChatMessage = ChatMessage(role: Option<string>, content: Option<string>)

  /** The caller's message list, which validation shortens in place. */
  class MessageList {
    var items: seq<ChatMessage>

    constructor(items: seq<ChatMessage>)
      ensures this.items == items
    {
      this.items := items;
    }
  }

  const TokenMissingError: string := "❌ " + "Ошибка конфигурации: токен не предоставлен"
  const NoMessagesError: string := "❌ " + "Ошибка: нет сообщений для отправки"
  const BadFormatError: string := "❌ " + "Ошибка: неверный формат сообщений"

  /** Above this total content length the list is trimmed ... */
  const TrimThreshold: nat := 100000
  /** ... down to at most this much, or to a single message. */
  const TrimTarget: nat := 50000

  predicate WellFormed(m: ChatMessage) {
    m.role.Some? && m.content.Some?
  }

  predicate AllWellFormed(ms: seq<ChatMessage>) {
    forall i :: 0 <= i < |ms| ==> WellFormed(ms[i])
  }

  /** `len(str(msg.get('content', '')))` for text content. */
  function ContentLength(m: ChatMessage): nat {
    if m.content.Some? then |m.content.value| else 0
  }

  function TotalLength(ms: seq<ChatMessage>): nat
    decreases |ms|
  {
    if ms == [] then 0 else ContentLength(ms[0]) + TotalLength(ms[1..])
  }

  /** The error `_validate_messages_and_token` reports, checked in order:
      a blank token, an empty list, an entry without `role` or `content`. */
  function ValidationError(ms: seq<ChatMessage>, token: string): Option<string> {
    if Strip(token) == [] then Some(TokenMissingError)
    else if ms == [] then Some(NoMessagesError)
    else if !AllWellFormed(ms) then Some(BadFormatError)
    else None
  }

  /** The oldest messages dropped while the total is over the target and
      more than one message is left. */
  function DropOldest(ms: seq<ChatMessage>): seq<ChatMessage>
    decreases |ms|
  {
    if TotalLength(ms) > TrimTarget && |ms| > 1 then DropOldest(ms[1..]) else ms
  }

  /** The list after a successful validation: trimmed only when its total
      is over the threshold. */
  function Trimmed(ms: seq<ChatMessage>): seq<ChatMessage> {
    if TotalLength(ms) > TrimThreshold then DropOldest(ms) else ms
  }

  /** Trimming keeps a suffix of the list: it drops the oldest messages and
      only while the rest is still over the target and has more than one
      message, so the kept suffix is the longest one allowed. */
  lemma {:induction false} DropOldestSuffix(ms: seq<ChatMessage>) returns (k: nat)
    ensures k <= |ms| && DropOldest(ms) == ms[k..]
    ensures ms != [] ==> k < |ms|
    ensures |ms[k..]| <= 1 || TotalLength(ms[k..]) <= TrimTarget
    ensures forall j :: 0 <= j < k ==> TotalLength(ms[j..]) > TrimTarget && |ms| - j > 1
    decreases |ms|
  {
    if TotalLength(ms) > TrimTarget && |ms| > 1 {
      var k' := DropOldestSuffix(ms[1..]);
      k := k' + 1;
      assert ms[1..][k'..] == ms[k..];
      forall j | 0 < j < k
        ensures TotalLength(ms[j..]) > TrimTarget && |ms| - j > 1
      {
        assert ms[1..][j - 1..] == ms[j..];
      }
      assert ms[0..] == ms;
    } else {
      k := 0;
      assert ms[0..] == ms;
    }
  }

  /** The validated list: unchanged up to the threshold; above it, the
      newest messages whose total is within the target (or the newest one
      alone), in their original order. */
  lemma TrimmedRule(ms: seq<ChatMessage>) returns (k: nat)
    ensures k <= |ms| && Trimmed(ms) == ms[k..]
    ensures TotalLength(ms) <= TrimThreshold ==> k == 0
    ensures TotalLength(ms) > TrimThreshold ==>
              k < |ms| && (|ms[k..]| == 1 || TotalLength(ms[k..]) <= TrimTarget)
  {
    if TotalLength(ms) > TrimThreshold {
      k := DropOldestSuffix(ms);
    } else {
      k := 0;
      assert ms[0..] == ms;
    }
  }

  /** `_validate_messages_and_token`: an invalid call reports its error and
      leaves the list alone; a valid one reports success and trims the
      caller's list in place. */
  method ValidateMessagesAndToken(messages: MessageList, token: string) returns (valid: bool, error: string)
    modifies messages
    ensures valid <==> ValidationError(old(messages.items), token).None?
    ensures !valid ==> error == ValidationError(old(messages.items), token).value
                       && messages.items == old(messages.items)
    ensures valid ==> error == "" && messages.items == Trimmed(old(messages.items))
  {
    if Strip(token) == [] {
      return false, TokenMissingError;
    }
    if messages.items == [] {
      return false, NoMessagesError;
    }
    for i := 0 to |messages.items|
      invariant forall j :: 0 <= j < i ==> WellFormed(messages.items[j])
    {
      if !WellFormed(messages.items[i]) {
        return false, BadFormatError;
      }
    }
    var total := TotalLength(messages.items);
    if total > TrimThreshold {
      while total > TrimTarget && |messages.items| > 1
        invariant DropOldest(messages.items) == DropOldest(old(messages.items))
        invariant total == TotalLength(messages.items)
        decreases |messages.items|
      {
        messages.items := messages.items[1..];
        total := TotalLength(messages.items);
      }
    }
    return true, "";
  }

  // ----- Transcription clean-up -----

  /** Lead-ins the audio model may put before the transcription. */
  const UnwantedPrefixes: seq<string> := [
    "Транскрипция:", "Текст:", "Содержание:", "Аудио содержит:", "В аудио говорится:",
    "Transcription:", "Text:", "Content:", "Audio contains:", "The audio says:",
    "Извините, я не могу", "Я не могу", "Sorry, I cannot", "I cannot"]

  /** Closing remarks it may put after it. */
  const UnwantedSuffixes: seq<string> := [
    "Это транскрипция аудио.", "Это текст из аудио.",
    "This is audio transcription.", "This is text from audio."]

  /** No whitespace at either end. */
  predicate IsStripped(s: string) {
    s == [] || (!IsSpace(s[0]) && !IsSpace(s[|s| - 1]))
  }

  /** The first prefix of the list the text starts with, removed, and the
      rest stripped; the text itself when none matches. */
  function WithoutPrefix(c: string, prefixes: seq<string>): (r: string)
    ensures IsStripped(c) ==> IsStripped(r)
    decreases |prefixes|
  {
    if prefixes == [] then c
    else if StartsWith(c, prefixes[0]) then Strip(c[|prefixes[0]|..])
    else WithoutPrefix(c, prefixes[1..])
  }

  /** The first suffix of the list the text ends with, removed, and the
      rest stripped; the text itself when none matches. */
  function WithoutSuffix(c: string, suffixes: seq<string>): (r: string)
    ensures IsStripped(c) ==> IsStripped(r)
    decreases |suffixes|
  {
    if suffixes == [] then c
    else if EndsWith(c, suffixes[0]) then Strip(c[..|c| - |suffixes[0]|])
    else WithoutSuffix(c, suffixes[1..])
  }

  /** At most one prefix goes, the first in list order that matches. */
  lemma {:induction false} WithoutPrefixRule(c: string, prefixes: seq<string>) returns (k: int)
    ensures -1 <= k < |prefixes|
    ensures forall i :: 0 <= i < |prefixes| && (k == -1 || i < k) ==> !StartsWith(c, prefixes[i])
    ensures k == -1 ==> WithoutPrefix(c, prefixes) == c
    ensures k >= 0 ==> StartsWith(c, prefixes[k]) && WithoutPrefix(c, prefixes) == Strip(c[|prefixes[k]|..])
    decreases |prefixes|
  {
    if prefixes == [] {
      k := -1;
    } else if StartsWith(c, prefixes[0]) {
      k := 0;
    } else {
      var k' := WithoutPrefixRule(c, prefixes[1..]);
      k := if k' == -1 then -1 else k' + 1;
      forall i | 0 < i < |prefixes| && (k == -1 || i < k)
        ensures !StartsWith(c, prefixes[i])
      {
        assert prefixes[1..][i - 1] == prefixes[i];
      }
    }
  }

  /** At most one suffix goes, the first in list order that matches. */
  lemma {:induction false} WithoutSuffixRule(c: string, suffixes: seq<string>) returns (k: int)
    ensures -1 <= k < |suffixes|
    ensures forall i :: 0 <= i < |suffixes| && (k == -1 || i < k) ==> !EndsWith(c, suffixes[i])
    ensures k == -1 ==> WithoutSuffix(c, suffixes) == c
    ensures k >= 0 ==> EndsWith(c, suffixes[k]) && WithoutSuffix(c, suffixes) == Strip(c[..|c| - |suffixes[k]|])
    decreases |suffixes|
  {
    if suffixes == [] {
      k := -1;
    } else if EndsWith(c, suffixes[0]) {
      k := 0;
    } else {
      var k' := WithoutSuffixRule(c, suffixes[1..]);
      k := if k' == -1 then -1 else k' + 1;
      forall i | 0 < i < |suffixes| && (k == -1 || i < k)
        ensures !EndsWith(c, suffixes[i])
      {
        assert suffixes[1..][i - 1] == suffixes[i];
      }
    }
  }

  /** What the clean-up of `_attempt_transcription_async` returns for the
      model's answer `content`. */
  function CleanTranscription(content: Option<string>): Option<string> {
    if content.None? || Strip(content.value) == [] then None
    else
      var c := WithoutSuffix(WithoutPrefix(Strip(content.value), UnwantedPrefixes), UnwantedSuffixes);
      if IsRefusalResponse(c) || c == [] then None else Some(c)
  }

  /** A cleaned transcription is non-empty, has no surrounding whitespace
      and is not a refusal; a missing or blank answer gives none. */
  lemma CleanTranscriptionResult(content: Option<string>)
    ensures content.None? || Strip(content.value) == [] ==> CleanTranscription(content).None?
    ensures CleanTranscription(content).Some? ==>
              var t := CleanTranscription(content).value;
              t != [] && IsStripped(t) && Strip(t) == t && !IsRefusalResponse(t)
  {
    if content.Some? && Strip(content.value) != [] {
      var c := WithoutSuffix(WithoutPrefix(Strip(content.value), UnwantedPrefixes), UnwantedSuffixes);
      if c != [] {
        StripUnchanged(c);
      }
    }
  }

  /** The prefix loop: the first matching lead-in removed. */
  method StripFirstPrefix(c: string, prefixes: seq<string>) returns (r: string)
    ensures r == WithoutPrefix(c, prefixes)
  {
    for i := 0 to |prefixes|
      invariant WithoutPrefix(c, prefixes) == WithoutPrefix(c, prefixes[i..])
    {
      assert prefixes[i..][1..] == prefixes[i + 1..];
      if StartsWith(c, prefixes[i]) {
        return Strip(c[|prefixes[i]|..]);
      }
    }
    return c;
  }

  /** The suffix loop: the first matching closing remark removed. */
  method StripFirstSuffix(c: string, suffixes: seq<string>) returns (r: string)
    ensures r == WithoutSuffix(c, suffixes)
  {
    for i := 0 to |suffixes|
      invariant WithoutSuffix(c, suffixes) == WithoutSuffix(c, suffixes[i..])
    {
      assert suffixes[i..][1..] == suffixes[i + 1..];
      if EndsWith(c, suffixes[i]) {
        return Strip(c[..|c| - |suffixes[i]|]);
      }
    }
    return c;
  }

  /** `_attempt_transcription_async` after the HTTP call: `content` is the
      model's answer. */
  method AttemptTranscriptionAsync(content: Option<string>) returns (r: Option<string>)
    ensures r == CleanTranscription(content)
  {
    if content.None? || Strip(content.value) == [] {
      return None;
    }
    var c := Strip(content.value);
    c := StripFirstPrefix(c, UnwantedPrefixes);
    c := StripFirstSuffix(c, UnwantedSuffixes);
    if IsRefusalResponse(c) {
      return None;
    }
    return if c != [] then Some(c) else None;
  }

  /** `_attempt_transcription` as written: the same clean-up, but the
      success path ends without a `return`, so the result is None on every
      path. */
  method AttemptTranscriptionSync(content: Option<string>) returns (r: Option<string>)
    ensures r == None
  {
    if content.None? || Strip(content.value) == [] {
      return None;
    }
    var c := Strip(content.value);
    c := StripFirstPrefix(c, UnwantedPrefixes);
    c := StripFirstSuffix(c, UnwantedSuffixes);
    if IsRefusalResponse(c) {
      return None;
    }
    r := None;
  }

  /** The supported audio formats. */
  const AudioFormats: seq<string> := ["mp3", "wav", "ogg", "m4a", "flac"]

  /** `transcribe_audio` / `transcribe_audio_async` after encoding: None
      without data or for an unsupported format; the attempt's text when it
      is a non-refusal; otherwise the apology picked by `choice` (the
      random choice). */
  function TranscribeOutcome(encoded: bool, format: string, attempt: Option<string>, choice: nat): Option<string>
    requires choice < |FallbackMessages|
  {
    if !encoded || format !in AudioFormats then None
    else if attempt.Some? && attempt.value != [] && !IsRefusalResponse(attempt.value) then attempt
    else Some(FallbackMessages[choice])
  }

  /** With the synchronous attempt, whose result is always None, every
      supported recording yields an apology, one the bot recognises as
      such, whatever was said. */
  lemma SyncTranscriptionAlwaysApologises(format: string, choice: nat)
    requires choice < |FallbackMessages| && format in AudioFormats
    ensures TranscribeOutcome(true, format, None, choice) == Some(FallbackMessages[choice])
    ensures IsFallbackMessage(TranscribeOutcome(true, format, None, choice).value)
  {
    FallbackMessageDetected(choice);
  }

  /** With the asynchronous attempt, a cleaned transcription reaches the
      caller unchanged. */
  lemma AsyncTranscriptionDelivered(format: string, content: Option<string>, choice: nat)
    requires choice < |FallbackMessages| && format in AudioFormats
    requires CleanTranscription(content).Some?
    ensures TranscribeOutcome(true, format, CleanTranscription(content), choice) == CleanTranscription(content)
  {
    CleanTranscriptionResult(content);
  }

  // ----- Reply shape -----

  /** The decoded answer: the first choice's message content when there is
      a `choices` list (`None` inside for a null content), and the
      `response` field when present. */
  datatype ApiReply = ApiReply(choices: Option<seq<Option<string>>>, response: Option<Option<string>>)

  const EmptyResponseError: string := "❌ " + "Получен пустой ответ от API"
  const UnexpectedFormatError: string := "❌ " + "Получен неожиданный формат ответа от API"

  /** The text for a non-200 status. */
  function StatusError(status: int, errorText: string): string {
    "❌ " + "Ошибка API (статус " + IntToString(status) + "): " + errorText
  }

  /** A content field as returned: itself when non-blank, else the
      empty-answer error. */
  function ContentOrError(content: Option<string>): string {
    if content.None? || Strip(content.value) == [] then EmptyResponseError else content.value
  }

  /** The reply `send_to_pollinations` returns for a status, the error
      body and the decoded answer: a non-empty `choices` wins over
      `response`, and an answer with neither is an unexpected format. */
  function ReplyText(status: int, errorText: string, reply: ApiReply): string {
    if status != 200 then StatusError(status, errorText)
    else if reply.choices.Some? && |reply.choices.value| > 0 then ContentOrError(reply.choices.value[0])
    else if reply.response.Some? then ContentOrError(reply.response.value)
    else UnexpectedFormatError
  }

  /** A text with a non-whitespace character is not blank. */
  lemma NotBlank(s: string, i: nat)
    requires i < |s| && !IsSpace(s[i])
    ensures Strip(s) != []
  {
    var start := StripIsInfix(s);
  }

  /** The bot always has something to show: the reply is never blank, and
      it is the model's own text exactly when that text is non-blank and
      comes from the first choice, or from `response` when there are no
      choices. */
  lemma ReplyTextRule(status: int, errorText: string, reply: ApiReply)
    ensures Strip(ReplyText(status, errorText, reply)) != []
    ensures status == 200 && reply.choices.Some? && |reply.choices.value| > 0 ==>
              ReplyText(status, errorText, reply) == ContentOrError(reply.choices.value[0])
    ensures status == 200 && reply.choices.Some? && |reply.choices.value| > 0
            && reply.choices.value[0].Some? && Strip(reply.choices.value[0].value) != [] ==>
              ReplyText(status, errorText, reply) == reply.choices.value[0].value
  {
    var r := ReplyText(status, errorText, reply);
    if r == EmptyResponseError || r == UnexpectedFormatError || status != 200 {
      assert r[0] == '❌';
      NotBlank(r, 0);
    }
  }

  /** `send_to_pollinations` with the HTTP round trip as parameters: the
      validation error when the call is invalid, otherwise the reply text. */
  method SendToPollinations(messages: MessageList, token: string,
                            status: int, errorText: string, reply: ApiReply) returns (text: string)
    modifies messages
    ensures ValidationError(old(messages.items), token).Some? ==>
              text == ValidationError(old(messages.items), token).value
    ensures ValidationError(old(messages.items), token).None? ==>
              text == ReplyText(status, errorText, reply) && messages.items == Trimmed(old(messages.items))
  {
    var valid, error := ValidateMessagesAndToken(messages, token);
    if !valid {
      return error;
    }
    text := ReplyText(status, errorText, reply);
  }

  // ----- Image analysis -----

  /** One message of an image-analysis request: a system text, or a user
      text with the image attached. */
  datatype VisionMessage = VisionMessage(role: string, text: string, imageUrl: Option<string>)

  /** The supported image formats. */
  const ImageFormats: seq<string> := ["jpg", "jpeg", "png", "gif", "webp"]

  /** The inline image reference sent with the question. */
  function ImageUrl(format: string, data: string): string {
    "data:image/" + format + ";base64," + data
  }

  /** The first attempt: the system prompt as a system message when it is
      set, then the question with the image. */
  function PrimaryRequest(question: string, systemPrompt: Option<string>, url: string): seq<VisionMessage> {
    (if TruthyStr(systemPrompt) then [VisionMessage("system", systemPrompt.value, None)] else [])
    + [VisionMessage("user", question, Some(url))]
  }

  /** The user text of the fallback attempt: the instructions folded in
      before the question. */
  function FoldedText(question: string, systemPrompt: Option<string>): string {
    if TruthyStr(systemPrompt) then "Инструкции: " + systemPrompt.value + "\n\n" + question else question
  }

  /** The fallback attempt: one user message, no system role. */
  function FoldedRequest(question: string, systemPrompt: Option<string>, url: string): seq<VisionMessage> {
    [VisionMessage("user", FoldedText(question, systemPrompt), Some(url))]
  }

  /** The two requests: the first carries a system message exactly when the
      prompt is set; the fallback never does, yet keeps the prompt and the
      question, in that order, in its one user text; both end with the
      question and the same image. */
  lemma RequestShapes(question: string, systemPrompt: Option<string>, url: string)
    ensures var p := PrimaryRequest(question, systemPrompt, url);
      && |p| == (if TruthyStr(systemPrompt) then 2 else 1)
      && (p[0].role == "system" <==> TruthyStr(systemPrompt))
      && p[|p| - 1] == VisionMessage("user", question, Some(url))
    ensures var f := FoldedRequest(question, systemPrompt, url);
      && |f| == 1 && f[0].role == "user" && f[0].imageUrl == Some(url)
      && EndsWith(f[0].text, question)
      && (TruthyStr(systemPrompt) ==>
            StartsWith(f[0].text, "Инструкции: " + systemPrompt.value)
            && Contains(f[0].text, systemPrompt.value))
      && (!TruthyStr(systemPrompt) ==> f[0].text == question)
  {
    var t := FoldedText(question, systemPrompt);
    if TruthyStr(systemPrompt) {
      var head := "Инструкции: " + systemPrompt.value;
      assert t == head + "\n\n" + question;
      assert t[..|head|] == head;
      assert t[|t| - |question|..] == question;
      assert t[|"Инструкции: "|..|"Инструкции: "| + |systemPrompt.value|] == systemPrompt.value;
      ContainsAt(t, systemPrompt.value, |"Инструкции: "|);
    } else {
      assert t[|t| - |question|..] == question;
    }
  }

  /** A non-blank answer. */
  predicate Answered(content: Option<string>) {
    content.Some? && Strip(content.value) != []
  }

  /** `analyze_image` / `analyze_image_async`, with the model as the oracle
      `ask` from attempt number and request to answer (None for a failed
      call; each attempt is its own POST, so the same request may fare
      differently twice): None without data or for an unsupported format;
      the first attempt's answer when it is non-blank; else the fallback's
      when that is; else None. */
  function AnalyzeImage(encoded: bool, format: string, data: string, question: string,
                        systemPrompt: Option<string>, ask: (nat, seq<VisionMessage>) -> Option<string>): Option<string>
  {
    if !encoded || format !in ImageFormats then None
    else
      var url := ImageUrl(format, data);
      var first := ask(0, PrimaryRequest(question, systemPrompt, url));
      if Answered(first) then first
      else
        var second := ask(1, FoldedRequest(question, systemPrompt, url));
        if Answered(second) then second else None
  }

  /** An analysis is never blank; the fallback is asked only when the
      first attempt gave nothing, and then its answer is the result. */
  lemma AnalyzeImageRule(encoded: bool, format: string, data: string, question: string,
                         systemPrompt: Option<string>, ask: (nat, seq<VisionMessage>) -> Option<string>)
    ensures var r := AnalyzeImage(encoded, format, data, question, systemPrompt, ask);
      && (r.Some? ==> Strip(r.value) != [])
      && (r.Some? ==> encoded && format in ImageFormats)
    ensures encoded && format in ImageFormats ==>
      var url := ImageUrl(format, data);
      var r := AnalyzeImage(encoded, format, data, question, systemPrompt, ask);
      && (Answered(ask(0, PrimaryRequest(question, systemPrompt, url))) ==>
            r == ask(0, PrimaryRequest(question, systemPrompt, url)))
      && (!Answered(ask(0, PrimaryRequest(question, systemPrompt, url))) ==>
            r == (if Answered(ask(1, FoldedRequest(question, systemPrompt, url)))
                  then ask(1, FoldedRequest(question, systemPrompt, url)) else None))
  {
  }

  /** Without a system prompt both attempts send the same one-message
      request, and still a failed first POST can be recovered by the
      second. */
  lemma PromptlessRetryRecovers(data: string, question: string, answer: string)
    requires Strip(answer) != []
    ensures PrimaryRequest(question, None, ImageUrl("png", data)) == FoldedRequest(question, None, ImageUrl("png", data))
    ensures AnalyzeImage(true, "png", data, question, None,
                         (attempt: nat, _: seq<VisionMessage>) => if attempt == 0 then None else Some(answer))
            == Some(answer)
  {
    assert "png" in ImageFormats;
  }
}
