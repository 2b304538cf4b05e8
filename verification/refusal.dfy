/** The text heuristics of the API gateway (src/services/pollinations_service.py):
    the detector that decides whether a model answer is a refusal to help,
    and the detector for the apology texts the bot itself substitutes when
    a voice message could not be transcribed. */
module Refusal {
  import opened Text

  // ----- Substring lists -----

  /** `pat in s` for some pattern of the list, tried in list order. */
  predicate ContainsAny(s: string, pats: seq<string>)
    decreases |pats|
  {
    pats != [] && (Contains(s, pats[0]) || ContainsAny(s, pats[1..]))
  }

  /** `ContainsAny` is `any(p in s for p in pats)`. */
  lemma {:induction false} ContainsAnyIff(s: string, pats: seq<string>)
    ensures ContainsAny(s, pats) <==> exists i :: 0 <= i < |pats| && Contains(s, pats[i])
    decreases |pats|
  {
    if pats != [] {
      ContainsAnyIff(s, pats[1..]);
      if !Contains(s, pats[0]) && (exists i :: 0 <= i < |pats| && Contains(s, pats[i])) {
        var i :| 0 <= i < |pats| && Contains(s, pats[i]);
        assert pats[1..][i - 1] == pats[i];
      }
    }
  }

  // ----- Refusal heuristic -----

  /** Phrases that mark an explicit refusal. */
  const ExplicitRefusals: seq<string> := [
    "извините", "sorry", "i'm sorry", "i am sorry",
    "не могу", "can't", "cannot", "can not",
    "не в состоянии", "unable", "not able",
    "не способен", "not capable",
    "отказываюсь", "refuse", "decline",
    "не буду", "will not", "won't",
    "не подходит", "not appropriate", "inappropriate",
    "не предназначен", "not designed", "not meant",
    "обратитесь к", "consult", "contact",
    "выходит за рамки", "beyond", "outside",
    "не подходящая тема", "not suitable topic",
    "уважительное общение", "respectful communication",
    "поддерживать общение", "support communication"]

  /** Words that say nothing on their own. */
  const ServiceWords: seq<string> := [
    "транскрипция", "transcription", "аудио", "audio",
    "сообщение", "message", "запрос", "request",
    "помощь", "help", "поддержка", "support"]

  /** Formal phrases typical of a canned answer. */
  const FormalPhrases: seq<string> := [
    "я здесь", "i'm here", "i am here",
    "пожалуйста", "please",
    "обратите внимание", "please note", "please be",
    "содержание", "content",
    "сообщений", "messages"]

  /** The longest stripped text still classed as a refusal for its length. */
  const ShortAnswerLength: nat := 9

  /** `response_text.lower().strip()`. */
  function Normalised(text: string): string {
    Strip(Lower(text))
  }

  /** At most three words, every one a service word. */
  predicate OnlyServiceWords(lowered: string) {
    var words := Words(lowered);
    |words| <= 3 && forall i :: 0 <= i < |words| ==> words[i] in ServiceWords
  }

  /** `_is_refusal_response`: blank text is never a refusal; otherwise an
      explicit refusal phrase, a very short answer, an answer made only of
      service words, or a formal phrase (anywhere, even inside a longer
      word) makes it one. */
  predicate IsRefusalResponse(text: string) {
    if text == [] || Strip(text) == [] then false
    else
      var lowered := Normalised(text);
      if ContainsAny(lowered, ExplicitRefusals) then true
      else if 0 < |Strip(text)| <= ShortAnswerLength then true
      else if OnlyServiceWords(lowered) then true
      else ContainsAny(lowered, FormalPhrases)
  }

  /** The rules of the heuristic, each on its own: a text is a refusal
      exactly when it is not blank and one of them applies. */
  lemma RefusalRules(text: string)
    ensures IsRefusalResponse(text) <==>
              Strip(text) != [] &&
              ( (exists i :: 0 <= i < |ExplicitRefusals| && Contains(Normalised(text), ExplicitRefusals[i]))
              || |Strip(text)| <= ShortAnswerLength
              || OnlyServiceWords(Normalised(text))
              || (exists i :: 0 <= i < |FormalPhrases| && Contains(Normalised(text), FormalPhrases[i])))
  {
    ContainsAnyIff(Normalised(text), ExplicitRefusals);
    ContainsAnyIff(Normalised(text), FormalPhrases);
  }

  /** Blank text, the empty text included, is never a refusal; a text
      whose stripped length is from 1 to 9 always is. */
  lemma RefusalByLength(text: string)
    ensures Strip(text) == [] ==> !IsRefusalResponse(text)
    ensures 0 < |Strip(text)| <= ShortAnswerLength ==> IsRefusalResponse(text)
  {
  }

  /** One explicit refusal phrase anywhere in the lowered text is enough. */
  lemma ExplicitPhraseRefuses(text: string, i: nat)
    requires i < |ExplicitRefusals| && Contains(Normalised(text), ExplicitRefusals[i])
    ensures IsRefusalResponse(text)
  {
    RefusalRules(text);
    assert Normalised(text) != [] by {
      assert |ExplicitRefusals[i]| > 0;
    }
    assert Strip(text) != [] by {
      LowerStripBlank(text);
    }
  }

  /** Lower-casing keeps blank text blank: a text whose normalised form is
      non-empty is itself not blank. */
  lemma LowerStripBlank(text: string)
    ensures Strip(text) == [] ==> Normalised(text) == []
  {
    if Strip(text) == [] {
      var start := StripIsInfix(text);
      var low := Lower(text);
      LowerAt(text);
      forall j | 0 <= j < |low|
        ensures IsSpace(low[j])
      {
        LowerCharFacts(text[j]);
      }
      var s2 := StripIsInfix(low);
    }
  }

  // ----- Fallback apologies -----

  /** The phrase the detector looks for in each apology, in the form the
      apology spells it. */
  const CannotHelp: string := "не могу помочь с этим"
  const CannotProcess: string := "не могу обработать это"
  const CannotAnswer: string := "не могу ответить на это"
  const CannotProcessRequest: string := "не могу обработать этот запрос"
  const CannotAnswerRequest: string := "не могу ответить на этот запрос"

  /** The apologies `_get_transcription_fallback_message` picks from; each
      is written around the detector phrase it carries. */
  const FallbackMessages: seq<string> := [
    "\U{1F914} Извините, но я " + CannotHelp
      + " запросом. Попробуйте сформулировать вопрос по-другому.",
    "\U{1F605} К сожалению, я " + CannotProcess
      + " сообщение. Можете попробовать переформулировать ваш вопрос?",
    "\U{1F937}‍♂️ Я " + CannotHelp
      + " запросом. Попробуйте задать вопрос в другом формате.",
    "\U{1F60A} Извините, но я " + CannotAnswer
      + " сообщение. Попробуйте переформулировать ваш вопрос.",
    "\U{1F914} К сожалению, я " + CannotHelp
      + ". Можете попробовать задать вопрос по-другому?",
    "\U{1F605} Я " + CannotProcessRequest
      + ". Попробуйте сформулировать вопрос иначе.",
    "\U{1F937}‍♀️ Извините, но я " + CannotHelp
      + " сообщением. Попробуйте переформулировать вопрос.",
    "\U{1F60A} К сожалению, я " + CannotAnswerRequest
      + ". Можете попробовать задать вопрос по-другому?"]

  /** The phrases `_is_fallback_message` looks for. */
  const FallbackIndicators: seq<string> := [
    CannotHelp,
    CannotProcess,
    CannotAnswer,
    "не могу помочь с этим запросом",
    CannotProcessRequest,
    CannotAnswerRequest,
    "не могу помочь с этим сообщением",
    "попробуйте сформулировать",
    "попробуйте переформулировать",
    "попробуйте задать вопрос",
    "сформулировать вопрос по-другому",
    "переформулировать ваш вопрос",
    "задать вопрос в другом формате",
    "сформулировать вопрос иначе"]

  /** `_is_fallback_message`: a non-empty text whose lowered form holds
      one of the indicator phrases. */
  predicate IsFallbackMessage(text: string) {
    text != [] && ContainsAny(Lower(text), FallbackIndicators)
  }

  /** No character of the text is an upper-case letter. */
  predicate NoUpper(s: string) {
    forall i :: 0 <= i < |s| ==> !IsUpper(s[i])
  }

  /** Lower-casing keeps an occurrence of an all-lower-case phrase. */
  lemma LowerKeepsOccurrence(s: string, p: string, at: nat)
    requires OccursAt(s, p, at) && NoUpper(p)
    ensures OccursAt(Lower(s), p, at)
  {
    LowerAt(s);
    forall j | 0 <= j < |p|
      ensures Lower(s)[at + j] == p[j]
    {
      assert s[at + j] == s[at..at + |p|][j];
      LowerCharFacts(s[at + j]);
    }
  }

  /** A text written around an all-lower-case phrase holds the phrase
      after lower-casing. */
  lemma AroundPhraseFound(a: string, p: string, c: string)
    requires NoUpper(p)
    ensures Contains(Lower(a + p + c), p)
  {
    var m := a + p + c;
    assert m[|a|..|a| + |p|] == p;
    LowerKeepsOccurrence(m, p, |a|);
    ContainsAt(Lower(m), p, |a|);
  }

  /** An apology written around the `k`-th indicator is detected. */
  lemma AroundIndicatorDetected(a: string, k: nat, c: string)
    requires k < |FallbackIndicators| && NoUpper(FallbackIndicators[k])
    ensures IsFallbackMessage(a + FallbackIndicators[k] + c)
  {
    AroundPhraseFound(a, FallbackIndicators[k], c);
    ContainsAnyIff(Lower(a + FallbackIndicators[k] + c), FallbackIndicators);
  }

  lemma CannotHelpLowerCase() ensures NoUpper(CannotHelp) { }
  lemma CannotProcessLowerCase() ensures NoUpper(CannotProcess) { }
  lemma CannotAnswerLowerCase() ensures NoUpper(CannotAnswer) { }
  lemma CannotProcessRequestLowerCase() ensures NoUpper(CannotProcessRequest) { }
  lemma CannotAnswerRequestLowerCase() ensures NoUpper(CannotAnswerRequest) { }

  /** The `i`-th apology is recognised by the phrase it is written around. */
  lemma FallbackMessageDetected(i: nat)
    requires i < |FallbackMessages|
    ensures IsFallbackMessage(FallbackMessages[i])
  {
    if i == 0 {
      CannotHelpLowerCase();
      AroundIndicatorDetected("\U{1F914} Извините, но я ", 0,
        " запросом. Попробуйте сформулировать вопрос по-другому.");
    } else if i == 1 {
      CannotProcessLowerCase();
      AroundIndicatorDetected("\U{1F605} К сожалению, я ", 1,
        " сообщение. Можете попробовать переформулировать ваш вопрос?");
    } else if i == 2 {
      CannotHelpLowerCase();
      AroundIndicatorDetected("\U{1F937}‍♂️ Я ", 0,
        " запросом. Попробуйте задать вопрос в другом формате.");
    } else if i == 3 {
      CannotAnswerLowerCase();
      AroundIndicatorDetected("\U{1F60A} Извините, но я ", 2,
        " сообщение. Попробуйте переформулировать ваш вопрос.");
    } else if i == 4 {
      CannotHelpLowerCase();
      AroundIndicatorDetected("\U{1F914} К сожалению, я ", 0,
        ". Можете попробовать задать вопрос по-другому?");
    } else if i == 5 {
      CannotProcessRequestLowerCase();
      AroundIndicatorDetected("\U{1F605} Я ", 4,
        ". Попробуйте сформулировать вопрос иначе.");
    } else if i == 6 {
      CannotHelpLowerCase();
      AroundIndicatorDetected("\U{1F937}‍♀️ Извините, но я ", 0,
        " сообщением. Попробуйте переформулировать вопрос.");
    } else {
      CannotAnswerRequestLowerCase();
      AroundIndicatorDetected("\U{1F60A} К сожалению, я ", 5,
        ". Можете попробовать задать вопрос по-другому?");
    }
  }

  /** Every apology the bot substitutes is recognised as one, and the
      empty text is not. */
  lemma FallbackMessagesDetected()
    ensures !IsFallbackMessage("")
    ensures forall i :: 0 <= i < |FallbackMessages| ==> IsFallbackMessage(FallbackMessages[i])
  {
    forall i | 0 <= i < |FallbackMessages|
      ensures IsFallbackMessage(FallbackMessages[i])
    {
      FallbackMessageDetected(i);
    }
  }
}
