/** The error-reply classifier of the handler decorator
    (src/utils/decorators.py): the lowered error text is tested against
    ordered keyword rules and the first rule that matches picks the reply.
    The ordered-rule reading is stated once here, as a rule table with a
    first-match function, and the handler's if/elif chain is proved equal
    to it. */
module Decorators {
  import opened Wrappers
  import opened Text

  const TimeoutMessage: string := "⏰ Превышено время ожидания ответа. Попробуйте позже."
  const RateMessage: string := "\U{1F6AB} Слишком много запросов. Подождите немного."
  const AuthMessage: string := "\U{1F510} Ошибка авторизации. Обратитесь к администратору."
  const NetworkMessage: string := "\U{1F310} Проблемы с сетью. Проверьте соединение и попробуйте снова."
  const FileSizeMessage: string := "\U{1F4C1} Файл слишком большой. Уменьшите размер и попробуйте снова."
  const ValidationMessage: string := "❌ Некорректные данные. Проверьте введенную информацию."
  const DefaultMessage: string := "❌ Произошла ошибка. Попробуйте позже или обратитесь к администратору."

  // ----- Ordered keyword rules -----

  /** A rule matches when, for one of its alternatives, every word of that
      alternative occurs in the text. */
  datatype Rule = Rule(alternatives: seq<seq<string>>, message: string)

  predicate AllOccur(text: string, words: seq<string>)
    decreases |words|
  {
    words == [] || (Contains(text, words[0]) && AllOccur(text, words[1..]))
  }

  predicate SomeAlternative(text: string, alternatives: seq<seq<string>>)
    decreases |alternatives|
  {
    alternatives != [] && (AllOccur(text, alternatives[0]) || SomeAlternative(text, alternatives[1..]))
  }

  predicate Matches(text: string, r: Rule) {
    SomeAlternative(text, r.alternatives)
  }

  /** The index of the first rule at or after `i` that matches. */
  function FirstMatchFrom(rules: seq<Rule>, text: string, i: nat): (k: Option<nat>)
    requires i <= |rules|
    ensures k.Some? ==> i <= k.value < |rules|
    decreases |rules| - i
  {
    if i == |rules| then None
    else if Matches(text, rules[i]) then Some(i)
    else FirstMatchFrom(rules, text, i + 1)
  }

  /** The reply of the first matching rule, or the default one. */
  function Classify(rules: seq<Rule>, text: string, default: string): string {
    match FirstMatchFrom(rules, text, 0)
    case None => default
    case Some(k) => rules[k].message
  }

  /** The first match is a match, no earlier rule matches, and no match at
      all means that no rule matches. */
  lemma {:induction false} FirstMatchFromRule(rules: seq<Rule>, text: string, i: nat)
    requires i <= |rules|
    ensures FirstMatchFrom(rules, text, i).Some? ==>
              var k := FirstMatchFrom(rules, text, i).value;
              Matches(text, rules[k]) && forall j :: i <= j < k ==> !Matches(text, rules[j])
    ensures FirstMatchFrom(rules, text, i).None? ==> forall j :: i <= j < |rules| ==> !Matches(text, rules[j])
    decreases |rules| - i
  {
    if i < |rules| && !Matches(text, rules[i]) {
      FirstMatchFromRule(rules, text, i + 1);
    }
  }

  /** A rule's reply is given exactly when it matches and no earlier rule
      does. */
  lemma FirstRuleWins(rules: seq<Rule>, text: string, k: nat)
    requires k < |rules|
    ensures FirstMatchFrom(rules, text, 0) == Some(k) <==>
              Matches(text, rules[k]) && forall j :: 0 <= j < k ==> !Matches(text, rules[j])
  {
    FirstMatchFromRule(rules, text, 0);
  }

  const TimeoutRule: Rule := Rule([["timeout"], ["timed out"]], TimeoutMessage)
  const RateRule: Rule := Rule([["rate limit"], ["too many requests"]], RateMessage)
  const AuthRule: Rule := Rule([["unauthorized"], ["invalid token"]], AuthMessage)
  const NetworkRule: Rule := Rule([["network"], ["connection"]], NetworkMessage)
  const FileSizeRule: Rule := Rule([["file", "size"]], FileSizeMessage)
  const ValidationRule: Rule := Rule([["validation"], ["invalid"]], ValidationMessage)

  /** The rules of the decorator, in the order they are tried. */
  const DecoratorRules: seq<Rule> := [TimeoutRule, RateRule, AuthRule, NetworkRule, FileSizeRule, ValidationRule]

  // ----- The handler's chain -----

  /** `_get_user_friendly_error` on the error's text. */
  function FriendlyError(errorText: string): string {
    var t := Lower(errorText);
    if Contains(t, "timeout") || Contains(t, "timed out") then TimeoutMessage
    else if Contains(t, "rate limit") || Contains(t, "too many requests") then RateMessage
    else if Contains(t, "unauthorized") || Contains(t, "invalid token") then AuthMessage
    else if Contains(t, "network") || Contains(t, "connection") then NetworkMessage
    else if Contains(t, "file") && Contains(t, "size") then FileSizeMessage
    else if Contains(t, "validation") || Contains(t, "invalid") then ValidationMessage
    else DefaultMessage
  }

  /** The chain is the first-match reading of the rule table on the
      lowered text. */
  lemma FriendlyErrorIsFirstMatch(errorText: string)
    ensures FriendlyError(errorText) == Classify(DecoratorRules, Lower(errorText), DefaultMessage)
  {
    var t := Lower(errorText);
    if Matches(t, TimeoutRule) {
      TimeoutCase(errorText);
    } else if Matches(t, RateRule) {
      RateCase(errorText);
    } else if Matches(t, AuthRule) {
      AuthCase(errorText);
    } else if Matches(t, NetworkRule) {
      NetworkCase(errorText);
    } else if Matches(t, FileSizeRule) {
      FileSizeCase(errorText);
    } else if Matches(t, ValidationRule) {
      ValidationCase(errorText);
    } else {
      NoRuleCase(errorText);
    }
  }

  /** Trying only the first `n` rules finds the same first match when it
      lies among them, and none otherwise. */
  lemma {:induction false} FirstMatchPrefix(rules: seq<Rule>, n: nat, t: string, i: nat)
    requires i <= n <= |rules|
    ensures FirstMatchFrom(rules[..n], t, i) ==
              match FirstMatchFrom(rules, t, i)
              case Some(k) => (if k < n then Some(k) else None)
              case None => None
    decreases n - i
  {
    if i < n {
      assert rules[..n][i] == rules[i];
      FirstMatchPrefix(rules, n, t, i + 1);
    }
  }

  /** A rule that does not match is passed over. */
  lemma FirstMatchSkips(rules: seq<Rule>, t: string, i: nat)
    requires i < |rules| && !Matches(t, rules[i])
    ensures FirstMatchFrom(rules, t, i) == FirstMatchFrom(rules, t, i + 1)
  {
  }

  /** The table holds the six rules in order. */
  lemma DecoratorRulesInOrder()
    ensures |DecoratorRules| == 6
    ensures DecoratorRules[0] == TimeoutRule && DecoratorRules[1] == RateRule && DecoratorRules[2] == AuthRule
    ensures DecoratorRules[3] == NetworkRule && DecoratorRules[4] == FileSizeRule && DecoratorRules[5] == ValidationRule
  {
  }

  lemma TimeoutCase(errorText: string)
    requires Matches(Lower(errorText), TimeoutRule)
    ensures FriendlyError(errorText) == TimeoutMessage
    ensures FirstMatchFrom(DecoratorRules, Lower(errorText), 0) == Some(0)
    ensures Classify(DecoratorRules, Lower(errorText), DefaultMessage) == TimeoutMessage
  {
    var t := Lower(errorText);
    AllRulesTests(t);
    DecoratorRulesInOrder();
    assert FirstMatchFrom(DecoratorRules, t, 0) == Some(0);
  }

  lemma RateCase(errorText: string)
    requires Matches(Lower(errorText), RateRule)
    requires !Matches(Lower(errorText), TimeoutRule)
    ensures FriendlyError(errorText) == RateMessage
    ensures FirstMatchFrom(DecoratorRules, Lower(errorText), 0) == Some(1)
    ensures Classify(DecoratorRules, Lower(errorText), DefaultMessage) == RateMessage
  {
    var t := Lower(errorText);
    AllRulesTests(t);
    DecoratorRulesInOrder();
    FirstMatchSkips(DecoratorRules, t, 0);
    assert FirstMatchFrom(DecoratorRules, t, 1) == Some(1);
  }

  lemma AuthCase(errorText: string)
    requires Matches(Lower(errorText), AuthRule)
    requires !Matches(Lower(errorText), TimeoutRule) && !Matches(Lower(errorText), RateRule)
    ensures FriendlyError(errorText) == AuthMessage
    ensures FirstMatchFrom(DecoratorRules, Lower(errorText), 0) == Some(2)
    ensures Classify(DecoratorRules, Lower(errorText), DefaultMessage) == AuthMessage
  {
    var t := Lower(errorText);
    AllRulesTests(t);
    DecoratorRulesInOrder();
    FirstMatchSkips(DecoratorRules, t, 0);
    FirstMatchSkips(DecoratorRules, t, 1);
    assert FirstMatchFrom(DecoratorRules, t, 2) == Some(2);
  }

  lemma NetworkCase(errorText: string)
    requires Matches(Lower(errorText), NetworkRule)
    requires !Matches(Lower(errorText), TimeoutRule) && !Matches(Lower(errorText), RateRule) && !Matches(Lower(errorText), AuthRule)
    ensures FriendlyError(errorText) == NetworkMessage
    ensures FirstMatchFrom(DecoratorRules, Lower(errorText), 0) == Some(3)
    ensures Classify(DecoratorRules, Lower(errorText), DefaultMessage) == NetworkMessage
  {
    var t := Lower(errorText);
    AllRulesTests(t);
    DecoratorRulesInOrder();
    FirstMatchSkips(DecoratorRules, t, 0);
    FirstMatchSkips(DecoratorRules, t, 1);
    FirstMatchSkips(DecoratorRules, t, 2);
    assert FirstMatchFrom(DecoratorRules, t, 3) == Some(3);
  }

  lemma FileSizeCase(errorText: string)
    requires Matches(Lower(errorText), FileSizeRule)
    requires !Matches(Lower(errorText), TimeoutRule) && !Matches(Lower(errorText), RateRule) && !Matches(Lower(errorText), AuthRule) && !Matches(Lower(errorText), NetworkRule)
    ensures FriendlyError(errorText) == FileSizeMessage
    ensures FirstMatchFrom(DecoratorRules, Lower(errorText), 0) == Some(4)
    ensures Classify(DecoratorRules, Lower(errorText), DefaultMessage) == FileSizeMessage
  {
    var t := Lower(errorText);
    AllRulesTests(t);
    DecoratorRulesInOrder();
    FirstMatchSkips(DecoratorRules, t, 0);
    FirstMatchSkips(DecoratorRules, t, 1);
    FirstMatchSkips(DecoratorRules, t, 2);
    FirstMatchSkips(DecoratorRules, t, 3);
    assert FirstMatchFrom(DecoratorRules, t, 4) == Some(4);
  }

  lemma ValidationCase(errorText: string)
    requires Matches(Lower(errorText), ValidationRule)
    requires !Matches(Lower(errorText), TimeoutRule) && !Matches(Lower(errorText), RateRule) && !Matches(Lower(errorText), AuthRule) && !Matches(Lower(errorText), NetworkRule) && !Matches(Lower(errorText), FileSizeRule)
    ensures FriendlyError(errorText) == ValidationMessage
    ensures FirstMatchFrom(DecoratorRules, Lower(errorText), 0) == Some(5)
    ensures Classify(DecoratorRules, Lower(errorText), DefaultMessage) == ValidationMessage
  {
    var t := Lower(errorText);
    AllRulesTests(t);
    DecoratorRulesInOrder();
    FirstMatchSkips(DecoratorRules, t, 0);
    FirstMatchSkips(DecoratorRules, t, 1);
    FirstMatchSkips(DecoratorRules, t, 2);
    FirstMatchSkips(DecoratorRules, t, 3);
    FirstMatchSkips(DecoratorRules, t, 4);
    assert FirstMatchFrom(DecoratorRules, t, 5) == Some(5);
  }

  lemma NoRuleCase(errorText: string)
    requires !Matches(Lower(errorText), TimeoutRule) && !Matches(Lower(errorText), RateRule) && !Matches(Lower(errorText), AuthRule) && !Matches(Lower(errorText), NetworkRule) && !Matches(Lower(errorText), FileSizeRule) && !Matches(Lower(errorText), ValidationRule)
    ensures FriendlyError(errorText) == DefaultMessage
    ensures FirstMatchFrom(DecoratorRules, Lower(errorText), 0) == None
    ensures Classify(DecoratorRules, Lower(errorText), DefaultMessage) == DefaultMessage
  {
    var t := Lower(errorText);
    AllRulesTests(t);
    DecoratorRulesInOrder();
    FirstMatchSkips(DecoratorRules, t, 0);
    FirstMatchSkips(DecoratorRules, t, 1);
    FirstMatchSkips(DecoratorRules, t, 2);
    FirstMatchSkips(DecoratorRules, t, 3);
    FirstMatchSkips(DecoratorRules, t, 4);
    FirstMatchSkips(DecoratorRules, t, 5);
  }

  /** What each rule tests, spelled out. */
  lemma TimeoutTests(t: string)
    ensures Matches(t, TimeoutRule) <==> Contains(t, "timeout") || Contains(t, "timed out")
  {
    assert TimeoutRule.alternatives[1..] == [["timed out"]];
  }

  lemma RateTests(t: string)
    ensures Matches(t, RateRule) <==> Contains(t, "rate limit") || Contains(t, "too many requests")
  {
    assert RateRule.alternatives[1..] == [["too many requests"]];
  }

  lemma AuthTests(t: string)
    ensures Matches(t, AuthRule) <==> Contains(t, "unauthorized") || Contains(t, "invalid token")
  {
    assert AuthRule.alternatives[1..] == [["invalid token"]];
  }

  lemma NetworkTests(t: string)
    ensures Matches(t, NetworkRule) <==> Contains(t, "network") || Contains(t, "connection")
  {
    assert NetworkRule.alternatives[1..] == [["connection"]];
  }

  lemma FileSizeTests(t: string)
    ensures Matches(t, FileSizeRule) <==> Contains(t, "file") && Contains(t, "size")
  {
    assert FileSizeRule.alternatives[0][1..] == ["size"];
  }

  lemma ValidationTests(t: string)
    ensures Matches(t, ValidationRule) <==> Contains(t, "validation") || Contains(t, "invalid")
  {
    assert ValidationRule.alternatives[1..] == [["invalid"]];
  }

  /** All six rules spelled out. */
  lemma AllRulesTests(t: string)
    ensures Matches(t, TimeoutRule) <==> Contains(t, "timeout") || Contains(t, "timed out")
    ensures Matches(t, RateRule) <==> Contains(t, "rate limit") || Contains(t, "too many requests")
    ensures Matches(t, AuthRule) <==> Contains(t, "unauthorized") || Contains(t, "invalid token")
    ensures Matches(t, NetworkRule) <==> Contains(t, "network") || Contains(t, "connection")
    ensures Matches(t, FileSizeRule) <==> Contains(t, "file") && Contains(t, "size")
    ensures Matches(t, ValidationRule) <==> Contains(t, "validation") || Contains(t, "invalid")
  {
    TimeoutTests(t);
    RateTests(t);
    AuthTests(t);
    NetworkTests(t);
    FileSizeTests(t);
    ValidationTests(t);
  }

  /** `invalid token` is an authorisation failure, even though it also
      contains `invalid`, unless a timeout or rate rule matched first. */
  lemma InvalidTokenIsAuth(errorText: string, i: int)
    requires OccursAt(Lower(errorText), "invalid token", i)
    requires !Contains(Lower(errorText), "timeout") && !Contains(Lower(errorText), "timed out")
    requires !Contains(Lower(errorText), "rate limit") && !Contains(Lower(errorText), "too many requests")
    ensures FriendlyError(errorText) == AuthMessage
  {
    ContainsAt(Lower(errorText), "invalid token", i);
  }
}
