/** The inline-button handlers' own logic (src/bot/handlers/callbacks.py):
    the role buttons, the settings buttons that cycle a value, and the
    regenerate button's data and caption parsing. Replies and edits are
    left to the caller; the random seed is a parameter. */
module Callbacks {
  import opened Wrappers
  import opened Text
  import ContextStore

  // ----- Callback data -----

  /** The text after `tag::` in button data. */
  function ActionOf(data: string, tag: string): string
    requires StartsWith(data, tag + "::")
  {
    data[|tag| + 2..]
  }

  /** For a tag without a colon, `data.split("::", 1)` is the tag and the
      text after it. */
  lemma ActionOfIsSplit(data: string, tag: string)
    requires StartsWith(data, tag + "::")
    requires forall k :: 0 <= k < |tag| ==> tag[k] != ':'
    ensures SplitOnce(data, "::") == [tag, ActionOf(data, tag)]
  {
    assert data == tag + "::" + ActionOf(data, tag);
    SplitOnceAfterTag(tag, "::", ActionOf(data, tag));
  }

  // ----- Role buttons -----

  /** What a role button leads to. */
  datatype RoleReply = NotRole | RoleReset | RoleSet(role: string, prompt: string) | UnknownRole

  /** `role_callback` without the replies: `role::reset` drops the chat's
      role; any other value is passed to `set_role`, which refuses an
      unknown key. */
  method RoleCallback(cm: ContextStore.ContextManager, chat: int, data: string) returns (reply: RoleReply)
    requires cm.Valid()
    modifies cm`chatSystemPrompts, cm`chatRoles
    ensures cm.Valid()
    ensures !StartsWith(data, "role::") ==>
              reply == NotRole && cm.chatRoles == old(cm.chatRoles) && cm.chatSystemPrompts == old(cm.chatSystemPrompts)
    ensures StartsWith(data, "role::") && ActionOf(data, "role") == "reset" ==>
              reply == RoleReset && cm.chatRoles == old(cm.chatRoles) - {chat}
              && cm.chatSystemPrompts == old(cm.chatSystemPrompts)
    ensures StartsWith(data, "role::") && ActionOf(data, "role") != "reset"
            && ActionOf(data, "role") in cm.predefinedRoles ==>
              var v := ActionOf(data, "role");
              reply == RoleSet(v, cm.predefinedRoles[v]) && cm.GetRole(chat) == v
              && cm.GetSystemPrompt(chat) == cm.predefinedRoles[v]
              && cm.chatRoles == old(cm.chatRoles)[chat := v]
              && cm.chatSystemPrompts == old(cm.chatSystemPrompts) - {chat}
    ensures StartsWith(data, "role::") && ActionOf(data, "role") != "reset"
            && ActionOf(data, "role") !in cm.predefinedRoles ==>
              reply == UnknownRole && cm.chatRoles == old(cm.chatRoles)
              && cm.chatSystemPrompts == old(cm.chatSystemPrompts)
  {
    if !StartsWith(data, "role::") {
      return NotRole;
    }
    ActionOfIsSplit(data, "role");
    var value := SplitOnce(data, "::")[1];
    if value == "reset" {
      cm.ResetRole(chat);
      return RoleReset;
    }
    var r := cm.SetRole(chat, value);
    if r.Err? {
      return UnknownRole;
    }
    var current := cm.GetSystemPrompt(chat);
    return RoleSet(value, current);
  }

  // ----- Settings buttons -----

  const VerbosityOrder: seq<string> := ["short", "normal", "long"]
  const LangOrder: seq<string> := ["auto", "ru", "en"]
  const GroupModeOrder: seq<string> := ["mention_or_reply", "always"]
  const LimitOrder: seq<int> := [20, 40, 60, 100]

  /** Python's `order.index(x)`; `None` is the `ValueError`. */
  function IndexOf<T(==)>(order: seq<T>, x: T): (r: Option<nat>)
    ensures r.Some? <==> x in order
    ensures r.Some? ==> r.value < |order| && order[r.value] == x
    decreases |order|
  {
    if x !in order then None
    else if order[0] == x then Some(0)
    else
      assert x in order[1..];
      Some(1 + IndexOf(order[1..], x).value)
  }

  /** `index` reports the first position. */
  lemma {:induction false} IndexOfFirst<T>(order: seq<T>, x: T, j: nat)
    requires j < |order| && order[j] == x
    ensures IndexOf(order, x).Some? && IndexOf(order, x).value <= j
    decreases |order|
  {
    if order[0] != x {
      IndexOfFirst(order[1..], x, j - 1);
    }
  }

  /** The position after `i` in a cycle of `n` values, `(i + 1) % n`. */
  function Succ(i: nat, n: nat): nat {
    if i + 1 >= n then 0 else i + 1
  }

  /** The value after `cur` in the cycle `order`, or `None` when `cur` is
      not in it (`order[(order.index(cur) + 1) % len(order)]`). */
  function Next<T(==)>(order: seq<T>, cur: T): (r: Option<T>)
    ensures r.Some? <==> cur in order
    ensures r.Some? ==> r.value in order
  {
    match IndexOf(order, cur)
    case None => None
    case Some(i) => Some(order[Succ(i, |order|)])
  }

  predicate Distinct<T(==)>(order: seq<T>) {
    forall i, j :: 0 <= i < j < |order| ==> order[i] != order[j]
  }

  /** In a cycle without repeats, each value is followed by the one after
      it, and the last by the first. */
  lemma NextInCycle<T>(order: seq<T>, i: nat)
    requires Distinct(order) && i < |order|
    ensures Next(order, order[i]) == Some(order[Succ(i, |order|)])
  {
    IndexOfFirst(order, order[i], i);
  }

  /** `k` presses of a cycling button from `cur`. */
  function Presses<T(==)>(order: seq<T>, cur: T, k: nat): Option<T> {
    if k == 0 then Some(cur)
    else match Presses(order, cur, k - 1)
      case None => None
      case Some(v) => Next(order, v)
  }

  /** The position `k` places after `i` round a cycle of `n`, for `k <= n`. */
  function Around(i: nat, k: nat, n: nat): nat {
    if i + k < n then i + k else i + k - n
  }

  /** After `k` presses from the `i`-th value the button shows the value
      `k` places further round the cycle. */
  lemma {:induction false} PressesAdvance<T>(order: seq<T>, i: nat, k: nat)
    requires Distinct(order) && i < |order| && k <= |order|
    ensures Around(i, k, |order|) < |order|
    ensures Presses(order, order[i], k) == Some(order[Around(i, k, |order|)])
  {
    if k > 0 {
      PressesAdvance(order, i, k - 1);
      var j := Around(i, k - 1, |order|);
      NextInCycle(order, j);
      assert Succ(j, |order|) == Around(i, k, |order|);
    }
  }

  /** Pressing a cycling button as many times as it has values brings
      back the starting value. */
  lemma CycleReturns<T>(order: seq<T>, i: nat)
    requires Distinct(order) && i < |order|
    ensures Presses(order, order[i], |order|) == Some(order[i])
  {
    PressesAdvance(order, i, |order|);
  }

  /** The verbosity button goes short, normal, long and back to short. */
  lemma VerbosityCycle()
    ensures Next(VerbosityOrder, "short") == Some("normal")
    ensures Next(VerbosityOrder, "normal") == Some("long")
    ensures Next(VerbosityOrder, "long") == Some("short")
  {
    assert Distinct(VerbosityOrder);
    NextInCycle(VerbosityOrder, 0);
    NextInCycle(VerbosityOrder, 1);
    NextInCycle(VerbosityOrder, 2);
  }

  /** The language button goes auto, ru, en and back to auto. */
  lemma LangCycle()
    ensures Next(LangOrder, "auto") == Some("ru")
    ensures Next(LangOrder, "ru") == Some("en")
    ensures Next(LangOrder, "en") == Some("auto")
  {
    assert Distinct(LangOrder);
    NextInCycle(LangOrder, 0);
    NextInCycle(LangOrder, 1);
    NextInCycle(LangOrder, 2);
  }

  /** The group-mode button alternates between its two modes. */
  lemma GroupModeAlternates()
    ensures Next(GroupModeOrder, "mention_or_reply") == Some("always")
    ensures Next(GroupModeOrder, "always") == Some("mention_or_reply")
  {
    assert Distinct(GroupModeOrder);
    NextInCycle(GroupModeOrder, 0);
    NextInCycle(GroupModeOrder, 1);
  }

  /** The limit button goes 20, 40, 60, 100 and back to 20. */
  lemma LimitCycle()
    ensures Next(LimitOrder, 20) == Some(40)
    ensures Next(LimitOrder, 40) == Some(60)
    ensures Next(LimitOrder, 60) == Some(100)
    ensures Next(LimitOrder, 100) == Some(20)
  {
    assert Distinct(LimitOrder);
    NextInCycle(LimitOrder, 0);
    NextInCycle(LimitOrder, 1);
    NextInCycle(LimitOrder, 2);
    NextInCycle(LimitOrder, 3);
  }

  /** What a settings button does. `Invalid` is the `ValueError` of a
      current value outside the cycle. */
  datatype SettingsAction = NotSettings | Invalid | Update(key: string, value: ContextStore.SettingValue) | FlipAutoAnalyze

  /** `s.get(key, default)`. */
  function Get(s: ContextStore.Settings, key: string, default: ContextStore.SettingValue): ContextStore.SettingValue {
    if key in s then s[key] else default
  }

  /** The next text of a cycling setting; a number is never in the cycle. */
  function CycleText(order: seq<string>, v: ContextStore.SettingValue): Option<string> {
    match v
    case Str(t) => Next(order, t)
    case Int(_) => None
  }

  /** The update a text setting's button asks for. */
  function TextToggle(order: seq<string>, key: string, s: ContextStore.Settings, default: string): SettingsAction {
    match CycleText(order, Get(s, key, ContextStore.Str(default)))
    case Some(t) => Update(key, ContextStore.Str(t))
    case None => Invalid
  }

  /** The update the limit button asks for: the next value of the cycle,
      or the chat's effective limit when the current one is not in it. */
  function LimitToggle(s: ContextStore.Settings, chatLimit: int): SettingsAction {
    match ContextStore.SettingInt(Get(s, "context_limit", ContextStore.Int(chatLimit)))
    case None => Invalid
    case Some(cur) =>
      Update("context_limit", ContextStore.Int(if cur in LimitOrder then Next(LimitOrder, cur).value else chatLimit))
  }

  /** `settings_callback` up to `update_settings`, given the chat's merged
      settings and effective limit. */
  function SettingsActionFor(data: string, s: ContextStore.Settings, chatLimit: int): SettingsAction {
    if !StartsWith(data, "settings::") then NotSettings
    else
      var action := ActionOf(data, "settings");
      if action == "toggle_verbosity" then TextToggle(VerbosityOrder, "verbosity", s, "normal")
      else if action == "toggle_lang" then TextToggle(LangOrder, "lang", s, "auto")
      else if action == "toggle_group_mode" then TextToggle(GroupModeOrder, "group_mode", s, "mention_or_reply")
      else if action == "context_limit" then LimitToggle(s, chatLimit)
      else if action == "toggle_auto_analyze" then FlipAutoAnalyze
      else NotSettings
  }

  /** A text setting's button proposes a value of its cycle. */
  lemma TextToggleInCycle(order: seq<string>, key: string, s: ContextStore.Settings, default: string)
    ensures TextToggle(order, key, s, default).Update? ==>
              TextToggle(order, key, s, default) == Update(key, TextToggle(order, key, s, default).value)
              && TextToggle(order, key, s, default).value.Str?
              && TextToggle(order, key, s, default).value.text in order
  {
  }

  /** The limit button proposes a value of its cycle or the chat's
      effective limit. */
  lemma LimitToggleInCycle(s: ContextStore.Settings, chatLimit: int)
    ensures LimitToggle(s, chatLimit).Update? ==>
              LimitToggle(s, chatLimit).key == "context_limit" && LimitToggle(s, chatLimit).value.Int?
              && (LimitToggle(s, chatLimit).value.number in LimitOrder || LimitToggle(s, chatLimit).value.number == chatLimit)
  {
  }

  /** Every update a settings button asks for comes from one of the four
      cycling rules. */
  lemma SettingsActionCases(data: string, s: ContextStore.Settings, chatLimit: int)
    ensures var a := SettingsActionFor(data, s, chatLimit);
      a.Update? ==> a == TextToggle(VerbosityOrder, "verbosity", s, "normal")
                    || a == TextToggle(LangOrder, "lang", s, "auto")
                    || a == TextToggle(GroupModeOrder, "group_mode", s, "mention_or_reply")
                    || a == LimitToggle(s, chatLimit)
  {
  }

  /** A settings button only ever proposes a value of its own cycle, or,
      for the limit, the chat's effective limit. */
  lemma SettingsStayInCycle(data: string, s: ContextStore.Settings, chatLimit: int)
    ensures var a := SettingsActionFor(data, s, chatLimit);
      && (a.Update? && a.key == "verbosity" ==> a.value.Str? && a.value.text in VerbosityOrder)
      && (a.Update? && a.key == "lang" ==> a.value.Str? && a.value.text in LangOrder)
      && (a.Update? && a.key == "group_mode" ==> a.value.Str? && a.value.text in GroupModeOrder)
      && (a.Update? && a.key == "context_limit" ==>
            a.value.Int? && (a.value.number in LimitOrder || a.value.number == chatLimit))
  {
    SettingsActionCases(data, s, chatLimit);
    TextToggleInCycle(VerbosityOrder, "verbosity", s, "normal");
    TextToggleInCycle(LangOrder, "lang", s, "auto");
    TextToggleInCycle(GroupModeOrder, "group_mode", s, "mention_or_reply");
    LimitToggleInCycle(s, chatLimit);
  }

  /** `settings_callback` without the reply: applies the button's update
      through `update_settings`, or flips the auto-analysis switch; an
      unknown action or a value outside the cycle changes nothing. */
  method SettingsCallback(cm: ContextStore.ContextManager, chat: int, data: string) returns (act: SettingsAction)
    requires cm.Valid()
    modifies cm`chatSettings, cm`chatContextLimits, cm`autoAnalyzeSettings
    ensures cm.Valid()
    ensures act == SettingsActionFor(data, old(cm.GetSettings(chat)), old(cm.GetContextLimit(chat)))
    ensures act.Update? ==>
              && cm.chatSettings == old(cm.chatSettings)[chat := ContextStore.ApplySettings(
                   if chat in old(cm.chatSettings) then old(cm.chatSettings)[chat] else map[], [(act.key, act.value)])]
              && cm.chatContextLimits == (if ContextStore.MirroredLimit([(act.key, act.value)]).Some?
                                          then old(cm.chatContextLimits)[chat := ContextStore.MirroredLimit([(act.key, act.value)]).value]
                                          else old(cm.chatContextLimits))
              && cm.autoAnalyzeSettings == old(cm.autoAnalyzeSettings)
    ensures act.FlipAutoAnalyze? ==>
              && cm.IsAutoAnalyzeEnabled(chat) == !old(cm.IsAutoAnalyzeEnabled(chat))
              && cm.autoAnalyzeSettings == old(cm.autoAnalyzeSettings)[chat := !old(cm.IsAutoAnalyzeEnabled(chat))]
              && cm.chatSettings == old(cm.chatSettings) && cm.chatContextLimits == old(cm.chatContextLimits)
    ensures act.NotSettings? || act.Invalid? ==>
              && cm.chatSettings == old(cm.chatSettings) && cm.chatContextLimits == old(cm.chatContextLimits)
              && cm.autoAnalyzeSettings == old(cm.autoAnalyzeSettings)
  {
    act := SettingsActionFor(data, cm.GetSettings(chat), cm.GetContextLimit(chat));
    match act {
      case Update(key, value) =>
        var _ := cm.UpdateSettings(chat, [(key, value)]);
      case FlipAutoAnalyze =>
        var _ := cm.ToggleAutoAnalyze(chat);
      case NotSettings =>
      case Invalid =>
    }
  }

  // ----- Regenerate button -----

  /** The line the bot appends to a caption while it generates. */
  const ProgressMarker: string := "\n\n\U{1F3A8}"
  const MinRegenSide: int := 256
  const MaxRegenSide: int := 1536

  /** What the regenerate button's data and caption give. */
  datatype RegenParse = NotImagine | BadButton | Regenerate(prompt: string, width: int, height: int)

  /** The prompt of a caption: the text before the progress line, stripped. */
  function CaptionPrompt(caption: string): string {
    Strip(SplitOnce(caption, ProgressMarker)[0])
  }

  /** `max(256, min(1536, n))`. */
  function ClampRegen(n: int): int {
    if n > MaxRegenSide then MaxRegenSide else if n < MinRegenSide then MinRegenSide else n
  }

  /** `WxH`, in any case, split at the first `x`, each side clamped; `None`
      when there is no `x` or a side is not a number. */
  function ParseSize(sizePart: string): (r: Option<(int, int)>)
    ensures r.Some? ==> MinRegenSide <= r.value.0 <= MaxRegenSide && MinRegenSide <= r.value.1 <= MaxRegenSide
  {
    var sides := SplitOnce(Lower(sizePart), "x");
    if |sides| < 2 then None
    else match (ParseInt(sides[0]), ParseInt(sides[1]))
      case (Some(w), Some(h)) => Some((ClampRegen(w), ClampRegen(h)))
      case _ => None
  }

  /** The data and caption parsing of `imagine_callback`: with two or three
      `::`-separated parts the prompt comes from the caption, with four or
      more it is the third part; any seed in the data is ignored. */
  function ImagineData(data: string, caption: string): RegenParse {
    if !StartsWith(data, "imagine::") then NotImagine
    else
      var parts := SplitAll(data, "::");
      if |parts| < 2 then BadButton
      else
        var prompt := if |parts| <= 3 then CaptionPrompt(caption) else parts[2];
        match ParseSize(parts[1])
        case None => BadButton
        case Some((w, h)) => Regenerate(prompt, w, h)
  }

  /** The data of the regenerate button the bot attaches to an image. */
  function ButtonData(width: nat, height: nat): string {
    "imagine::" + IntToString(width) + "x" + IntToString(height)
  }

  /** Digits and the `x` between them. */
  lemma SizeTextChars(width: nat, height: nat)
    ensures var t := IntToString(width) + "x" + IntToString(height);
      forall k :: 0 <= k < |t| ==> t[k] != ':' && !IsUpper(t[k])
  {
    DigitsRoundTrip(width);
    DigitsRoundTrip(height);
    var a, b := IntToString(width), IntToString(height);
    var t := a + "x" + b;
    forall k | 0 <= k < |t|
      ensures t[k] != ':' && !IsUpper(t[k])
    {
      if k < |a| {
        assert t[k] == a[k];
      } else if k > |a| {
        assert t[k] == b[k - |a| - 1];
      }
    }
  }

  /** The bot's button data has two parts: the tag and the size. */
  lemma ButtonParts(width: nat, height: nat)
    ensures SplitAll(ButtonData(width, height), "::") == ["imagine", IntToString(width) + "x" + IntToString(height)]
  {
    var size := IntToString(width) + "x" + IntToString(height);
    var data := ButtonData(width, height);
    assert data == "imagine" + "::" + size;
    SizeTextChars(width, height);
    SplitAllAbsent(size, "::");
    FindFromSkips(data, "::", 0, 7);
    assert data[7..9] == "::";
    assert data[..7] == "imagine";
    assert data[9..] == size;
  }

  /** The size part of the bot's button reads back as the size, clamped. */
  lemma ButtonSize(width: nat, height: nat)
    ensures ParseSize(IntToString(width) + "x" + IntToString(height)) == Some((ClampRegen(width), ClampRegen(height)))
  {
    var a, b := IntToString(width), IntToString(height);
    var size := a + "x" + b;
    SizeTextChars(width, height);
    LowerUnchanged(size);
    DigitsRoundTrip(width);
    assert forall k :: 0 <= k < |a| ==> a[k] != 'x';
    SplitOnceAfterTag(a, "x", b);
    ParseIntRoundTrip(width);
    ParseIntRoundTrip(height);
  }

  /** A stripped caption without a progress line is its own prompt. */
  lemma PlainCaptionPrompt(prompt: string)
    requires Strip(prompt) == prompt && !Contains(prompt, ProgressMarker)
    ensures CaptionPrompt(prompt) == prompt
  {
  }

  /** The regenerate button round trip: the bot's own button under a
      caption holding the prompt gives back that prompt and the size,
      clamped to [256, 1536]. */
  lemma RegenerateRoundTrip(width: nat, height: nat, prompt: string)
    requires Strip(prompt) == prompt && !Contains(prompt, ProgressMarker)
    ensures ImagineData(ButtonData(width, height), prompt) == Regenerate(prompt, ClampRegen(width), ClampRegen(height))
  {
    ButtonParts(width, height);
    ButtonSize(width, height);
    PlainCaptionPrompt(prompt);
    assert StartsWith(ButtonData(width, height), "imagine::");
  }

  /** What the regenerate button leads to: a parse that gives no request,
      a refusal while an image is being generated, or a generation with
      a fresh seed. */
  datatype RegenStart = Skipped(parse: RegenParse) | Busy | Started(prompt: string, width: int, height: int, seed: int)

  /** The largest seed the button draws: a seed in the button data is
      ignored and a fresh one is drawn from 1 to 2^31 - 1. */
  const MaxDrawnSeed: int := 0x7FFF_FFFF

  /** `imagine_callback` up to the generation call: parse the button (a bad
      one gets its message `messageId` queued for cleanup in a truthy
      chat), refuse while an image is being generated, otherwise raise the
      image flag and draw a fresh seed (the button's seed is never used). */
  method ImagineCallback(cm: ContextStore.ContextManager, chat: int, messageId: int, data: string, caption: string,
                         drawnSeed: int)
    returns (outcome: RegenStart)
    requires cm.Valid()
    requires 1 <= drawnSeed <= MaxDrawnSeed
    modifies cm`contexts, cm`generatingFlags, cm`cleanupMessageIds
    ensures cm.Valid()
    ensures outcome.Started? ==> 1 <= outcome.seed <= MaxDrawnSeed
    ensures cm.cleanupMessageIds ==
              if ImagineData(data, caption) == BadButton && chat != 0
              then old(cm.cleanupMessageIds)[chat := old(cm.CleanupIds(chat)) + [messageId]]
              else old(cm.cleanupMessageIds)
    ensures var r := ImagineData(data, caption);
      && (!r.Regenerate? ==> outcome == Skipped(r)
                             && cm.generatingFlags == old(cm.generatingFlags) && cm.contexts == old(cm.contexts))
      && (r.Regenerate? && old(cm.IsGenerating(chat, "image")) ==>
            outcome == Busy && cm.generatingFlags == old(cm.generatingFlags) && cm.contexts == old(cm.contexts))
      && (r.Regenerate? && !old(cm.IsGenerating(chat, "image")) ==>
            outcome == Started(r.prompt, r.width, r.height, drawnSeed)
            && cm.generatingFlags == ContextStore.SetKind(old(cm.generatingFlags), chat, true, "image")
            && cm.contexts == (if chat in old(cm.contexts) then old(cm.contexts) else old(cm.contexts)[chat := []])
            && cm.IsGenerating(chat, "image"))
  {
    var parsed := ImagineData(data, caption);
    if !parsed.Regenerate? {
      if parsed == BadButton && chat != 0 {
        cm.AddCleanupMessage(chat, messageId);
      }
      return Skipped(parsed);
    }
    if cm.IsGenerating(chat, "image") {
      return Busy;
    }
    cm.SetGenerating(chat, true, "image");
    return Started(parsed.prompt, parsed.width, parsed.height, drawnSeed);
  }
}
