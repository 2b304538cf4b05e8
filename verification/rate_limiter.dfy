/** The sliding-window rate limiter (src/utils/rate_limiter.py): per user and
    per chat it keeps the timestamps of admitted requests, prunes the ones
    older than a window from the front, and admits a new request only when
    the last one is far enough back and both windows have room. Timestamps
    are exact reals; the clock reading is the parameter `now`. */
module RateLimiting {
  import opened Wrappers
  import Config

  /** The admission window, in seconds. */
  const WindowSeconds: real := 60.0
  /** How far back the periodic sweep keeps timestamps, in seconds. */
  const SweepSeconds: real := 3600.0

  predicate Sorted(s: seq<real>) {
    forall i, j :: 0 <= i < j < |s| ==> s[i] <= s[j]
  }

  /** What `_cleanup_old_requests` leaves: the list after popping every
      leading timestamp below `cutoff`. */
  function Prune(s: seq<real>, cutoff: real): (r: seq<real>)
    ensures |r| <= |s|
    ensures r == [] || r[0] >= cutoff
    decreases |s|
  {
    if |s| > 0 && s[0] < cutoff then Prune(s[1..], cutoff) else s
  }

  /** Pruning removes exactly a prefix of timestamps below the cutoff. */
  lemma {:induction false} PruneDropsOldPrefix(s: seq<real>, cutoff: real)
    ensures Prune(s, cutoff) == s[|s| - |Prune(s, cutoff)|..]
    ensures forall i :: 0 <= i < |s| - |Prune(s, cutoff)| ==> s[i] < cutoff
    decreases |s|
  {
    if |s| > 0 && s[0] < cutoff {
      PruneDropsOldPrefix(s[1..], cutoff);
    }
  }

  /** On a sorted list, pruning keeps it sorted and keeps exactly the
      timestamps at or after the cutoff. */
  lemma PruneSorted(s: seq<real>, cutoff: real)
    requires Sorted(s)
    ensures Sorted(Prune(s, cutoff))
    ensures forall i :: 0 <= i < |s| ==> (s[i] >= cutoff <==> i >= |s| - |Prune(s, cutoff)|)
  {
    PruneDropsOldPrefix(s, cutoff);
    var d := |s| - |Prune(s, cutoff)|;
    forall i | d <= i < |s|
      ensures s[i] >= cutoff
    {
      assert Prune(s, cutoff)[0] == s[d];
    }
  }

  /** A last timestamp at or after the cutoff survives pruning and stays last. */
  lemma PruneKeepsRecentLast(s: seq<real>, cutoff: real)
    requires |s| > 0 && s[|s| - 1] >= cutoff
    ensures |Prune(s, cutoff)| > 0
    ensures Prune(s, cutoff)[|Prune(s, cutoff)| - 1] == s[|s| - 1]
  {
    PruneDropsOldPrefix(s, cutoff);
  }

  /** `_cleanup_old_requests`: pop the front while it is older than the window. */
  method CleanupOldRequests(requests: seq<real>, now: real, window: real) returns (kept: seq<real>)
    ensures kept == Prune(requests, now - window)
  {
    var cutoff := now - window;
    kept := requests;
    while |kept| > 0 && kept[0] < cutoff
      invariant Prune(kept, cutoff) == Prune(requests, cutoff)
      decreases |kept|
    {
      kept := kept[1..];
    }
  }

  /** The two limiter settings the bot is configured with
      (`min_request_interval`, `max_requests_per_minute`). */
  datatype Limits = Limits(minInterval: real, maxPerMinute: int)

  /** The ranges the settings validators accept: an interval in [0.1, 10]
      seconds and a ceiling in [1, 100] requests a minute. */
  predicate ValidLimits(cfg: Limits) {
    0.1 <= cfg.minInterval <= 10.0 && 1 <= cfg.maxPerMinute <= 100
  }

  /** The settings as shipped. */
  const DefaultLimits: Limits := Limits(Config.MinRequestInterval, Config.MaxRequestsPerMinute)

  /** The minimum interval in force: a falsy argument (absent or 0) means
      the configured one. */
  function EffectiveInterval(minInterval: Option<real>, cfg: Limits): real {
    if minInterval.Some? && minInterval.value != 0.0 then minInterval.value
    else cfg.minInterval
  }

  /** The per-minute ceiling in force: a falsy argument means the
      configured one. */
  function EffectiveMax(maxPerMinute: Option<int>, cfg: Limits): int {
    if TruthyInt(maxPerMinute) then maxPerMinute.value else cfg.maxPerMinute
  }

  /** The user's part of the verdict, on the pruned user list. */
  predicate UserAdmits(userRequests: seq<real>, minInterval: real, maxPerMinute: int, now: real) {
    var recent := Prune(userRequests, now - WindowSeconds);
    !(|recent| > 0 && now - recent[|recent| - 1] < minInterval)
    && |recent| < maxPerMinute
  }

  /** The verdict of `check_rate_limit` from the lists it reads. */
  predicate Admits(userRequests: seq<real>, chatRequests: seq<real>, chat: Option<int>,
                   minInterval: Option<real>, maxPerMinute: Option<int>, cfg: Limits, now: real)
  {
    UserAdmits(userRequests, EffectiveInterval(minInterval, cfg), EffectiveMax(maxPerMinute, cfg), now)
    && (TruthyInt(chat) ==>
          |Prune(chatRequests, now - WindowSeconds)| < EffectiveMax(maxPerMinute, cfg) / 2)
  }

  /** A request less than `min_interval` after the user's previous one is
      refused, whichever chat it comes from (for intervals up to the window). */
  lemma TooSoonIsRefused(userRequests: seq<real>, chatRequests: seq<real>, chat: Option<int>,
                         minInterval: Option<real>, maxPerMinute: Option<int>, cfg: Limits, now: real)
    requires 0.0 < EffectiveInterval(minInterval, cfg) <= WindowSeconds
    requires |userRequests| > 0
    requires now - userRequests[|userRequests| - 1] < EffectiveInterval(minInterval, cfg)
    ensures !Admits(userRequests, chatRequests, chat, minInterval, maxPerMinute, cfg, now)
  {
    PruneKeepsRecentLast(userRequests, now - WindowSeconds);
  }

  /** A full user window refuses. */
  lemma FullUserWindowIsRefused(userRequests: seq<real>, chatRequests: seq<real>, chat: Option<int>,
                                minInterval: Option<real>, maxPerMinute: Option<int>, cfg: Limits, now: real)
    requires |Prune(userRequests, now - WindowSeconds)| >= EffectiveMax(maxPerMinute, cfg)
    ensures !Admits(userRequests, chatRequests, chat, minInterval, maxPerMinute, cfg, now)
  {
  }

  /** A truthy chat whose window holds half the ceiling refuses; a chat id
      of 0 or none skips the chat check altogether. */
  lemma ChatWindowRule(userRequests: seq<real>, chatRequests: seq<real>, chat: Option<int>,
                       minInterval: Option<real>, maxPerMinute: Option<int>, cfg: Limits, now: real)
    ensures TruthyInt(chat) && |Prune(chatRequests, now - WindowSeconds)| >= EffectiveMax(maxPerMinute, cfg) / 2
            ==> !Admits(userRequests, chatRequests, chat, minInterval, maxPerMinute, cfg, now)
    ensures !TruthyInt(chat) ==>
              (Admits(userRequests, chatRequests, chat, minInterval, maxPerMinute, cfg, now)
               <==> UserAdmits(userRequests, EffectiveInterval(minInterval, cfg), EffectiveMax(maxPerMinute, cfg), now))
  {
  }

  /** Falsy overrides fall back to the configured settings, which as
      shipped are 2 seconds and 30 a minute and lie in the validators'
      ranges. */
  lemma FalsyOverridesUseDefaults(minInterval: Option<real>, maxPerMinute: Option<int>, cfg: Limits)
    requires minInterval == None || minInterval == Some(0.0)
    requires maxPerMinute == None || maxPerMinute == Some(0)
    ensures EffectiveInterval(minInterval, cfg) == cfg.minInterval
    ensures EffectiveMax(maxPerMinute, cfg) == cfg.maxPerMinute
    ensures EffectiveInterval(minInterval, DefaultLimits) == 2.0
    ensures EffectiveMax(maxPerMinute, DefaultLimits) == 30
    ensures ValidLimits(DefaultLimits)
  {
  }

  /** A ceiling of 1, which the validator accepts, leaves a chat a ceiling
      of 1 // 2 == 0: every request from a chat is refused. */
  lemma CapOneRefusesEveryChat(userRequests: seq<real>, chatRequests: seq<real>, chat: Option<int>,
                               minInterval: Option<real>, maxPerMinute: Option<int>, cfg: Limits, now: real)
    requires TruthyInt(chat) && EffectiveMax(maxPerMinute, cfg) == 1
    ensures !Admits(userRequests, chatRequests, chat, minInterval, maxPerMinute, cfg, now)
  {
  }

  /** The wait `get_wait_time` reports, from the lists it reads: the rest of
      the configured interval since the user's last request (the user list
      is not pruned here), raised to the time until the oldest chat entry
      leaves the window when the chat is at its ceiling. `None` is the
      `IndexError` of reading the oldest entry of an empty chat list, which
      a ceiling below 2 lets through. */
  function WaitTime(userRequests: seq<real>, chatRequests: seq<real>, chat: Option<int>,
                    cfg: Limits, now: real): Option<real>
  {
    var userWait :=
      if |userRequests| > 0 then Max(0.0, cfg.minInterval - (now - userRequests[|userRequests| - 1]))
      else 0.0;
    var recent := Prune(chatRequests, now - WindowSeconds);
    if TruthyInt(chat) && |recent| >= cfg.maxPerMinute / 2 then
      if recent == [] then None
      else Some(Max(userWait, WindowSeconds - (now - recent[0])))
    else Some(userWait)
  }

  function Max(a: real, b: real): real {
    if a >= b then a else b
  }

  /** The wait is never negative, and it is zero for a user with no earlier
      request whose chat (if any) is under its ceiling. It fails exactly
      for a truthy chat with an empty window under a ceiling below 2, so
      never under a ceiling of 2 or more. */
  lemma WaitTimeBounds(userRequests: seq<real>, chatRequests: seq<real>, chat: Option<int>, cfg: Limits, now: real)
    ensures var w := WaitTime(userRequests, chatRequests, chat, cfg, now);
      && (w.Some? ==> w.value >= 0.0)
      && (w.None? <==> TruthyInt(chat) && Prune(chatRequests, now - WindowSeconds) == [] && cfg.maxPerMinute < 2)
      && (userRequests == []
          && (!TruthyInt(chat) || |Prune(chatRequests, now - WindowSeconds)| < cfg.maxPerMinute / 2)
          ==> w == Some(0.0))
  {
  }

  /** With a ceiling of 1, asking how long a chat with no recent request
      must wait raises instead of answering. */
  lemma CapOneWaitRaises(userRequests: seq<real>, chat: int, now: real)
    requires chat != 0
    ensures WaitTime(userRequests, [], Some(chat), Limits(2.0, 1), now) == None
  {
  }

  /** Pruning twice is pruning once. */
  lemma PruneIdempotent(s: seq<real>, cutoff: real)
    ensures Prune(Prune(s, cutoff), cutoff) == Prune(s, cutoff)
  {
  }

  /** The body of `cleanup_old_data` for one map, visiting the keys in the
      order of the snapshot `keys` (the dictionary's own key list): prune
      each key's list and delete the key when nothing is left. */
  method SweepRequests(m: map<int, seq<real>>, keys: seq<int>, now: real) returns (r: map<int, seq<real>>)
    requires forall k :: k in m <==> k in keys
    ensures forall k :: k in r <==> k in m && Prune(m[k], now - SweepSeconds) != []
    ensures forall k :: k in r ==> r[k] == Prune(m[k], now - SweepSeconds)
  {
    var cutoff := now - SweepSeconds;
    r := m;
    for i := 0 to |keys|
      invariant r.Keys <= m.Keys
      invariant forall k :: k in m && k !in keys[..i] ==> k in r && r[k] == m[k]
      invariant forall k :: k in keys[..i] ==>
                  (k in r <==> Prune(m[k], cutoff) != [])
                  && (k in r ==> r[k] == Prune(m[k], cutoff))
    {
      var k := keys[i];
      var current := if k in r then r[k] else [];
      var kept := CleanupOldRequests(current, now, SweepSeconds);
      PruneIdempotent(m[k], cutoff);
      if kept == [] {
        r := r - {k};
      } else {
        r := r[k := kept];
      }
      assert keys[..i + 1] == keys[..i] + [k];
    }
    assert keys[..|keys|] == keys;
  }

  class RateLimiter {
    /** Admitted request times per user id, oldest first. */
    var userRequests: map<int, seq<real>>
    /** Admitted request times per chat id, oldest first. */
    var chatRequests: map<int, seq<real>>

    constructor()
      ensures userRequests == map[] && chatRequests == map[]
    {
      userRequests := map[];
      chatRequests := map[];
    }

    /** The user's list as the default dictionary yields it. */
    function UserRequests(user: int): seq<real>
      reads this`userRequests
    {
      if user in userRequests then userRequests[user] else []
    }

    /** The chat's list as the default dictionary yields it. */
    function ChatRequests(chat: Option<int>): seq<real>
      reads this`chatRequests
    {
      if chat.Some? && chat.value in chatRequests then chatRequests[chat.value] else []
    }

    /** `check_rate_limit` under the configured settings `cfg`: prunes the
        user's list (and, once the user checks pass, the chat's list) and
        decides; it never records anything. */
    method CheckRateLimit(user: int, chat: Option<int>, minInterval: Option<real>,
                          maxPerMinute: Option<int>, cfg: Limits, now: real) returns (allowed: bool)
      modifies this`userRequests, this`chatRequests
      ensures allowed == Admits(old(UserRequests(user)), old(ChatRequests(chat)), chat,
                                minInterval, maxPerMinute, cfg, now)
      ensures userRequests == old(userRequests)[user := Prune(old(UserRequests(user)), now - WindowSeconds)]
      ensures chatRequests ==
                if TruthyInt(chat)
                   && UserAdmits(old(UserRequests(user)), EffectiveInterval(minInterval, cfg),
                                 EffectiveMax(maxPerMinute, cfg), now)
                then old(chatRequests)[chat.value := Prune(old(ChatRequests(chat)), now - WindowSeconds)]
                else old(chatRequests)
    {
      var interval := EffectiveInterval(minInterval, cfg);
      var ceiling := EffectiveMax(maxPerMinute, cfg);
      var recent := CleanupOldRequests(UserRequests(user), now, WindowSeconds);
      userRequests := userRequests[user := recent];
      if |recent| > 0 && now - recent[|recent| - 1] < interval {
        return false;
      }
      if |recent| >= ceiling {
        return false;
      }
      if TruthyInt(chat) {
        var chatRecent := CleanupOldRequests(ChatRequests(chat), now, WindowSeconds);
        chatRequests := chatRequests[chat.value := chatRecent];
        if |chatRecent| >= ceiling / 2 {
          return false;
        }
      }
      return true;
    }

    /** `record_request`: appends `now` to the user's list, and to the
        chat's list when the chat id is truthy. */
    method RecordRequest(user: int, chat: Option<int>, now: real)
      modifies this`userRequests, this`chatRequests
      ensures userRequests == old(userRequests)[user := old(UserRequests(user)) + [now]]
      ensures chatRequests ==
                if TruthyInt(chat) then old(chatRequests)[chat.value := old(ChatRequests(chat)) + [now]]
                else old(chatRequests)
    {
      userRequests := userRequests[user := UserRequests(user) + [now]];
      if TruthyInt(chat) {
        chatRequests := chatRequests[chat.value := ChatRequests(chat) + [now]];
      }
    }

    /** `get_wait_time` under the configured settings `cfg`: reading the
        user's list creates its key; the chat's list is pruned when the chat
        id is truthy, also when reading its oldest entry then raises
        (`None`). */
    method GetWaitTime(user: int, chat: Option<int>, cfg: Limits, now: real) returns (wait: Option<real>)
      modifies this`userRequests, this`chatRequests
      ensures wait == WaitTime(old(UserRequests(user)), old(ChatRequests(chat)), chat, cfg, now)
      ensures wait.Some? ==> wait.value >= 0.0
      ensures cfg.maxPerMinute >= 2 ==> wait.Some?
      ensures userRequests == old(userRequests)[user := old(UserRequests(user))]
      ensures chatRequests ==
                if TruthyInt(chat) then old(chatRequests)[chat.value := Prune(old(ChatRequests(chat)), now - WindowSeconds)]
                else old(chatRequests)
    {
      var requests := UserRequests(user);
      userRequests := userRequests[user := requests];
      var userWait := 0.0;
      if |requests| > 0 {
        var last := requests[|requests| - 1];
        userWait := Max(0.0, cfg.minInterval - (now - last));
      }
      wait := Some(userWait);
      if TruthyInt(chat) {
        var recent := CleanupOldRequests(ChatRequests(chat), now, WindowSeconds);
        chatRequests := chatRequests[chat.value := recent];
        if |recent| >= cfg.maxPerMinute / 2 {
          if recent == [] {
            wait := None;
          } else {
            var oldest := recent[0];
            wait := Some(Max(userWait, WindowSeconds - (now - oldest)));
          }
        }
      }
      WaitTimeBounds(old(UserRequests(user)), old(ChatRequests(chat)), chat, cfg, now);
    }

    /** One pass of `cleanup_old_data`, given the key lists it iterates:
        both maps swept to the last hour. */
    method CleanupOldData(now: real, userKeys: seq<int>, chatKeys: seq<int>)
      requires forall k :: k in userRequests <==> k in userKeys
      requires forall k :: k in chatRequests <==> k in chatKeys
      modifies this`userRequests, this`chatRequests
      ensures forall k :: k in userRequests <==>
                k in old(userRequests) && Prune(old(userRequests)[k], now - SweepSeconds) != []
      ensures forall k :: k in userRequests ==>
                userRequests[k] == Prune(old(userRequests)[k], now - SweepSeconds)
      ensures forall k :: k in chatRequests <==>
                k in old(chatRequests) && Prune(old(chatRequests)[k], now - SweepSeconds) != []
      ensures forall k :: k in chatRequests ==>
                chatRequests[k] == Prune(old(chatRequests)[k], now - SweepSeconds)
    {
      userRequests := SweepRequests(userRequests, userKeys, now);
      chatRequests := SweepRequests(chatRequests, chatKeys, now);
    }
  }

  /** Appending a timestamp no earlier than the last one keeps a list sorted,
      so lists fed by a non-decreasing clock stay sorted. */
  lemma RecordKeepsSorted(s: seq<real>, now: real)
    requires Sorted(s)
    requires s == [] || s[|s| - 1] <= now
    ensures Sorted(s + [now])
  {
  }
}
