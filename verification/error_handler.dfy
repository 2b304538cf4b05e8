/** The bot's error type and the error handler's reply classifier
    (src/utils/error_handler.py). A bot error carries its own reply; any
    other error is classified by the same ordered keyword rules as the
    decorator's, without the validation rule. */
module ErrorHandler {
  import opened Wrappers
  import opened Text
  import Decorators

  /** The reply of a bot error built without one. */
  const DefaultBotMessage: string := "Произошла ошибка. Попробуйте позже."

  /** `BotError` and its subclasses. */
  datatype BotErrorKind = Base | Api | RateLimit | Validation

  /** An error as the handler sees it: a bot error with its fields, or any
      other exception, of which only the text matters. */
  datatype Error =
    | BotError(kind: BotErrorKind, message: string, userFriendly: string, context: map<string, string>)
    | OtherError(text: string)

  /** `BotError(message, user_friendly, context)`: a missing or empty reply
      becomes the default one, a missing context an empty one. */
  function NewBotError(kind: BotErrorKind, message: string, userFriendly: Option<string>,
                       context: Option<map<string, string>>): (e: Error)
    ensures e.BotError? && e.kind == kind && e.message == message
  {
    BotError(kind, message,
             if TruthyStr(userFriendly) then userFriendly.value else DefaultBotMessage,
             if context.Some? then context.value else map[])
  }

  /** The handler's rules: the decorator's, in the same order, without the
      last (validation) rule. */
  const HandlerRules: seq<Decorators.Rule> :=
    [Decorators.TimeoutRule, Decorators.RateRule, Decorators.AuthRule, Decorators.NetworkRule, Decorators.FileSizeRule]

  /** `get_user_friendly_error`. */
  function GetUserFriendlyError(e: Error): string {
    match e
    case BotError(_, _, userFriendly, _) => userFriendly
    case OtherError(text) =>
      var t := Lower(text);
      if Contains(t, "timeout") || Contains(t, "timed out") then Decorators.TimeoutMessage
      else if Contains(t, "rate limit") || Contains(t, "too many requests") then Decorators.RateMessage
      else if Contains(t, "unauthorized") || Contains(t, "invalid token") then Decorators.AuthMessage
      else if Contains(t, "network") || Contains(t, "connection") then Decorators.NetworkMessage
      else if Contains(t, "file") && Contains(t, "size") then Decorators.FileSizeMessage
      else Decorators.DefaultMessage
  }

  /** A bot error's reply is never empty: its own reply when one was given,
      the default one otherwise; the context defaults to empty. */
  lemma BotErrorDefaults(kind: BotErrorKind, message: string, userFriendly: Option<string>,
                         context: Option<map<string, string>>)
    ensures var e := NewBotError(kind, message, userFriendly, context);
      && e.userFriendly != []
      && (userFriendly.None? || userFriendly == Some("") ==> e.userFriendly == DefaultBotMessage)
      && (userFriendly.Some? && userFriendly.value != [] ==> e.userFriendly == userFriendly.value)
      && (context.None? ==> e.context == map[])
  {
    assert DefaultBotMessage[0] == 'П';
  }

  /** A bot error's reply does not depend on its message, whatever keyword
      the message holds. */
  lemma BotErrorIgnoresMessage(kind: BotErrorKind, m1: string, m2: string, userFriendly: Option<string>,
                               context: Option<map<string, string>>)
    ensures GetUserFriendlyError(NewBotError(kind, m1, userFriendly, context))
         == GetUserFriendlyError(NewBotError(kind, m2, userFriendly, context))
    ensures GetUserFriendlyError(NewBotError(kind, m1, None, context)) == DefaultBotMessage
  {
  }

  /** For any other error the chain is the first-match reading of the
      handler's rules on the lowered text. */
  lemma OtherErrorIsFirstMatch(text: string)
    ensures GetUserFriendlyError(OtherError(text)) == Decorators.Classify(HandlerRules, Lower(text), Decorators.DefaultMessage)
  {
    var t := Lower(text);
    HandlerRulesArePrefix();
    Decorators.FirstMatchPrefix(Decorators.DecoratorRules, 5, t, 0);
    if Decorators.Matches(t, Decorators.TimeoutRule) {
      Decorators.TimeoutCase(text);
    } else if Decorators.Matches(t, Decorators.RateRule) {
      Decorators.RateCase(text);
    } else if Decorators.Matches(t, Decorators.AuthRule) {
      Decorators.AuthCase(text);
    } else if Decorators.Matches(t, Decorators.NetworkRule) {
      Decorators.NetworkCase(text);
    } else if Decorators.Matches(t, Decorators.FileSizeRule) {
      Decorators.FileSizeCase(text);
    } else if Decorators.Matches(t, Decorators.ValidationRule) {
      Decorators.ValidationCase(text);
    } else {
      Decorators.NoRuleCase(text);
    }
    Decorators.AllRulesTests(t);
  }

  /** The two classifiers agree on every text the validation rule does
      not match. */
  lemma HandlerAgreesWithDecorator(text: string)
    requires !Decorators.Matches(Lower(text), Decorators.ValidationRule)
    ensures GetUserFriendlyError(OtherError(text)) == Decorators.FriendlyError(text)
  {
    Decorators.AllRulesTests(Lower(text));
  }

  /** On a text where the validation rule is the only one that matches
      (`invalid` alone, say) the decorator asks for valid data while the
      handler gives the default reply. */
  lemma OnlyValidationDiffers(text: string)
    requires !Decorators.Matches(Lower(text), Decorators.TimeoutRule) && !Decorators.Matches(Lower(text), Decorators.RateRule)
    requires !Decorators.Matches(Lower(text), Decorators.AuthRule) && !Decorators.Matches(Lower(text), Decorators.NetworkRule)
    requires !Decorators.Matches(Lower(text), Decorators.FileSizeRule)
    requires Decorators.Matches(Lower(text), Decorators.ValidationRule)
    ensures GetUserFriendlyError(OtherError(text)) == Decorators.DefaultMessage
    ensures Decorators.FriendlyError(text) == Decorators.ValidationMessage
  {
    Decorators.AllRulesTests(Lower(text));
  }

  /** The handler tries the decorator's rules in the same order and stops
      before the validation rule. */
  lemma HandlerRulesArePrefix()
    ensures |HandlerRules| == 5
    ensures HandlerRules == Decorators.DecoratorRules[..5]
    ensures Decorators.DecoratorRules[5..] == [Decorators.ValidationRule]
  {
  }
}
