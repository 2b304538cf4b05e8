/** The earlier conversation store (class `ContextManager` in the root-level
    context_manager.py): one global system prompt, a fixed history limit of
    20 entries, one boolean "generating" flag per chat and a per-user
    last-request time for rate limiting. Clock readings are the parameter
    `now`. */
module LegacyContext {
  import opened Wrappers
  import opened Text
  import ContextStore

  /** One history entry of the earlier store: no timestamp, no image flag. */
  datatype LegacyEntry = LegacyEntry(role: string, content: string, author: Option<ContextStore.Author>)

  /** The fixed history limit. */
  const HistoryLimit: nat := 20

  /** The built-in prompt, in the source's four adjacent literals. */
  const LegacyDefaultPrompt: string :=
    "Ты - полезный ассистент по имени СикСик. " +
    "Отвечай кратко, по делу и дружелюбно. " +
    "Если тебя спрашивают о чем-то, что ты не знаешь, честно скажи об этом. " +
    "Используй эмодзи для лучшего восприятия."

  /** The default `min_interval` of `check_rate_limit`, in seconds. */
  const DefaultMinInterval: real := 1.0

  // ----- History -----

  /** The newest 20 entries of a history. */
  function KeepNewest(h: seq<LegacyEntry>): seq<LegacyEntry> {
    if |h| > HistoryLimit then h[|h| - HistoryLimit..] else h
  }

  /** An add keeps the new entry last and exactly the newest 20 entries in
      their original order. */
  lemma KeepNewestAfterAdd(h: seq<LegacyEntry>, e: LegacyEntry)
    ensures var r := KeepNewest(h + [e]);
      && |r| == (if |h| + 1 > HistoryLimit then HistoryLimit else |h| + 1)
      && r == (h + [e])[|h| + 1 - |r|..]
      && r[|r| - 1] == e
  {
  }

  /** A history within the limit stays within it after an add, losing its
      oldest entry exactly when it was full. */
  lemma KeepNewestStaysBounded(h: seq<LegacyEntry>, e: LegacyEntry)
    requires |h| <= HistoryLimit
    ensures |KeepNewest(h + [e])| <= HistoryLimit
    ensures KeepNewest(h + [e]) == if |h| < HistoryLimit then h + [e] else h[1..] + [e]
  {
    if |h| == HistoryLimit {
      assert (h + [e])[1..] == h[1..] + [e];
    }
  }

  // ----- Payload -----

  /** One history entry as sent: a user entry carries its author label,
      every other entry (system entries included) goes out unchanged. */
  function LegacyRenderEntry(e: LegacyEntry): ContextStore.ApiMessage {
    if e.role == "user" then ContextStore.ApiMessage("user", ContextStore.AuthorLabel(e.author) + ": " + e.content)
    else ContextStore.ApiMessage(e.role, e.content)
  }

  /** The history part of the payload, entry by entry. */
  function LegacyRenderHistory(h: seq<LegacyEntry>): seq<ContextStore.ApiMessage> {
    seq(|h|, i requires 0 <= i < |h| => LegacyRenderEntry(h[i]))
  }

  /** The leading system message: present exactly when the global prompt is
      non-empty. */
  function LegacyHeader(prompt: string): seq<ContextStore.ApiMessage> {
    if prompt != [] then [ContextStore.ApiMessage("system", prompt)] else []
  }

  /** The whole payload for the global prompt and a history. */
  function LegacyPayload(prompt: string, h: seq<LegacyEntry>): seq<ContextStore.ApiMessage> {
    LegacyHeader(prompt) + LegacyRenderHistory(h)
  }

  /** The payload's shape: the prompt first exactly when it is non-empty,
      then one rendered message per history entry, in history order; no
      entry is dropped, system entries included. */
  lemma LegacyPayloadShape(prompt: string, h: seq<LegacyEntry>)
    ensures var msgs := LegacyPayload(prompt, h);
      var off := if prompt != [] then 1 else 0;
      && |msgs| == off + |h|
      && (prompt != [] ==> msgs[0] == ContextStore.ApiMessage("system", prompt))
      && (forall i :: 0 <= i < |h| ==> msgs[off + i] == LegacyRenderEntry(h[i]))
  {
  }

  /** Every entry keeps its role; an entry from anyone but the user keeps
      its text, system entries included. */
  lemma LegacyRenderKeepsRole(e: LegacyEntry)
    ensures LegacyRenderEntry(e).role == e.role
    ensures e.role != "user" ==> LegacyRenderEntry(e).content == e.content
  {
  }

  /** A user entry is never sent bare: its text comes after its non-empty
      author label and ": ". */
  lemma LegacyUserEntryLabelled(e: LegacyEntry)
    requires e.role == "user"
    ensures var m := LegacyRenderEntry(e).content;
      var who := ContextStore.AuthorLabel(e.author);
      && who != []
      && StartsWith(m, who + ": ") && EndsWith(m, e.content)
      && |m| == |who| + 2 + |e.content|
  {
    var who := ContextStore.AuthorLabel(e.author);
    var m := who + ": " + e.content;
    assert m[..|who + ": "|] == who + ": ";
    assert m[|m| - |e.content|..] == e.content;
  }

  /** The build loop: each entry's rendering appended in history order. */
  method AppendLegacyHistory(header: seq<ContextStore.ApiMessage>, h: seq<LegacyEntry>) returns (msgs: seq<ContextStore.ApiMessage>)
    ensures msgs == header + LegacyRenderHistory(h)
  {
    msgs := header;
    for i := 0 to |h|
      invariant msgs == header + LegacyRenderHistory(h[..i])
    {
      assert LegacyRenderHistory(h[..i + 1]) == LegacyRenderHistory(h[..i]) + [LegacyRenderEntry(h[i])];
      var e := h[i];
      var text: string;
      if e.role == "user" {
        var who := ContextStore.AuthorLabel(e.author);
        text := who + ": " + e.content;
      } else {
        text := e.content;
      }
      msgs := msgs + [ContextStore.ApiMessage(e.role, text)];
    }
    assert h[..|h|] == h;
  }

  // ----- Rate limiting -----

  /** The last admitted request time of a user; 0 for an unknown user. */
  function LastRequest(last: map<int, real>, user: int): real {
    if user in last then last[user] else 0.0
  }

  /** `check_rate_limit` admits when at least `minInterval` seconds have
      passed since the user's last admitted request. */
  predicate LegacyAdmits(last: map<int, real>, user: int, minInterval: real, now: real) {
    !(now - LastRequest(last, user) < minInterval)
  }

  /** The last-request map after a check: `now` recorded only on admission. */
  function AfterCheck(last: map<int, real>, user: int, minInterval: real, now: real): map<int, real> {
    if LegacyAdmits(last, user, minInterval, now) then last[user := now] else last
  }

  /** Two admitted requests of one user are at least `minInterval` apart:
      after an admission at `now`, a check sooner than `minInterval` later
      is refused, and one at least that much later is admitted. Other users
      are unaffected. */
  lemma LegacySpacing(last: map<int, real>, user: int, minInterval: real, now: real, later: real, other: int)
    requires LegacyAdmits(last, user, minInterval, now)
    ensures LegacyAdmits(AfterCheck(last, user, minInterval, now), user, minInterval, later)
            <==> later - now >= minInterval
    ensures other != user ==>
              LastRequest(AfterCheck(last, user, minInterval, now), other) == LastRequest(last, other)
  {
  }

  /** An unknown user is measured from time 0: admitted exactly when `now`
      is at least `minInterval`. A refused check changes nothing. */
  lemma LegacyFirstRequest(last: map<int, real>, user: int, minInterval: real, now: real)
    requires user !in last
    ensures LegacyAdmits(last, user, minInterval, now) <==> now >= minInterval
    ensures !LegacyAdmits(last, user, minInterval, now) ==> AfterCheck(last, user, minInterval, now) == last
  {
  }

  // ----- Generating flag -----

  /** The flags after `init_context`: a chat without history gets the flag
      False, whatever it held before. */
  function InitFlags(contexts: map<int, seq<LegacyEntry>>, flags: map<int, bool>, chat: int): map<int, bool> {
    if chat !in contexts then flags[chat := false] else flags
  }

  /** The flag of a chat; False when never set. */
  function FlagOf(flags: map<int, bool>, chat: int): bool {
    if chat in flags then flags[chat] else false
  }

  /** As written, `set_generating` does not create the history slot, so the
      first `add_message` (or `get_context`, `build_api_messages`) of a chat
      whose flag was just set clears the flag while the operation runs. */
  lemma InitDropsRunningFlag(contexts: map<int, seq<LegacyEntry>>, flags: map<int, bool>, chat: int)
    requires chat !in contexts
    ensures FlagOf(flags[chat := true], chat)
    ensures !FlagOf(InitFlags(contexts, flags[chat := true], chat), chat)
  {
  }

  /** The concrete case: a fresh store, `set_generating(7, True)`, then a
      message in chat 7. */
  lemma InitDropsRunningFlagExample()
    ensures var flags := map[7 := true];
      FlagOf(flags, 7) && !FlagOf(InitFlags(map[], flags, 7), 7)
  {
    InitDropsRunningFlag(map[], map[], 7);
  }

  class ContextManager {
    var contexts: map<int, seq<LegacyEntry>>
    var generatingFlags: map<int, bool>
    var userLastRequest: map<int, real>
    /** The one system prompt shared by every chat. */
    var systemPrompt: string

    constructor()
      ensures contexts == map[] && generatingFlags == map[] && userLastRequest == map[]
      ensures GetSystemPrompt() == LegacyDefaultPrompt
    {
      contexts, generatingFlags, userLastRequest := map[], map[], map[];
      systemPrompt := LegacyDefaultPrompt;
    }

    function History(chat: int): seq<LegacyEntry>
      reads this`contexts
    {
      if chat in contexts then contexts[chat] else []
    }

    /** `init_context`: a new chat gets an empty history and the flag False. */
    method InitContext(chat: int)
      modifies this`contexts, this`generatingFlags
      ensures contexts == if chat in old(contexts) then old(contexts) else old(contexts)[chat := []]
      ensures generatingFlags == InitFlags(old(contexts), old(generatingFlags), chat)
    {
      if chat !in contexts {
        contexts := contexts[chat := []];
        generatingFlags := generatingFlags[chat := false];
      }
    }

    /** `reset_context`: an existing history is emptied; the flag is False. */
    method ResetContext(chat: int)
      modifies this`contexts, this`generatingFlags
      ensures contexts == if chat in old(contexts) then old(contexts)[chat := []] else old(contexts)
      ensures generatingFlags == old(generatingFlags)[chat := false]
      ensures !IsGenerating(chat) && History(chat) == []
    {
      if chat in contexts {
        contexts := contexts[chat := []];
      }
      generatingFlags := generatingFlags[chat := false];
    }

    /** `add_message`: the entry goes last and the newest 20 are kept. */
    method AddMessage(chat: int, role: string, content: string, author: Option<ContextStore.Author>)
      modifies this`contexts, this`generatingFlags
      ensures contexts == old(contexts)[chat := KeepNewest(old(History(chat)) + [LegacyEntry(role, content, author)])]
      ensures generatingFlags == InitFlags(old(contexts), old(generatingFlags), chat)
    {
      InitContext(chat);
      var h := contexts[chat] + [LegacyEntry(role, content, author)];
      if |h| > HistoryLimit {
        h := h[|h| - HistoryLimit..];
      }
      contexts := contexts[chat := h];
    }

    /** `get_context`: the chat's history as a value, so later changes to
        the store never show through it. */
    method GetContext(chat: int) returns (h: seq<LegacyEntry>)
      modifies this`contexts, this`generatingFlags
      ensures h == old(History(chat)) && History(chat) == h
      ensures contexts == if chat in old(contexts) then old(contexts) else old(contexts)[chat := []]
      ensures generatingFlags == InitFlags(old(contexts), old(generatingFlags), chat)
    {
      InitContext(chat);
      h := contexts[chat];
    }

    /** `build_api_messages`: the global prompt, then every entry. */
    method BuildApiMessages(chat: int) returns (msgs: seq<ContextStore.ApiMessage>)
      modifies this`contexts, this`generatingFlags
      ensures msgs == LegacyPayload(systemPrompt, old(History(chat)))
      ensures contexts == if chat in old(contexts) then old(contexts) else old(contexts)[chat := []]
      ensures generatingFlags == InitFlags(old(contexts), old(generatingFlags), chat)
    {
      InitContext(chat);
      msgs := LegacyHeader(systemPrompt);
      msgs := AppendLegacyHistory(msgs, contexts[chat]);
    }

    /** `set_generating`: stores the flag, without creating the history slot. */
    method SetGenerating(chat: int, status: bool)
      modifies this`generatingFlags
      ensures generatingFlags == old(generatingFlags)[chat := status]
      ensures IsGenerating(chat) == status
    {
      generatingFlags := generatingFlags[chat := status];
    }

    predicate IsGenerating(chat: int)
      reads this`generatingFlags
    {
      FlagOf(generatingFlags, chat)
    }

    /** `check_rate_limit` with the clock reading `now`: a refused check
        records nothing, an admitted one records `now`. */
    method CheckRateLimit(user: int, minInterval: real, now: real) returns (allowed: bool)
      modifies this`userLastRequest
      ensures allowed == LegacyAdmits(old(userLastRequest), user, minInterval, now)
      ensures userLastRequest == AfterCheck(old(userLastRequest), user, minInterval, now)
    {
      var lastRequest := LastRequest(userLastRequest, user);
      if now - lastRequest < minInterval {
        return false;
      }
      userLastRequest := userLastRequest[user := now];
      allowed := true;
    }

    /** `set_system_prompt`: one prompt for every chat. */
    method SetSystemPrompt(prompt: string)
      modifies this`systemPrompt
      ensures GetSystemPrompt() == prompt
    {
      systemPrompt := prompt;
    }

    /** `get_system_prompt`: the one prompt, whatever the chat. */
    function GetSystemPrompt(): string
      reads this`systemPrompt
    {
      systemPrompt
    }

    /** `reset_system_prompt`: back to the built-in text. */
    method ResetSystemPrompt()
      modifies this`systemPrompt
      ensures GetSystemPrompt() == LegacyDefaultPrompt
    {
      systemPrompt := LegacyDefaultPrompt;
    }
  }
}
