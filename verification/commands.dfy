/** The command handlers' own logic (src/bot/handlers/commands.py): the
    argument parser of `/imagine` in quick mode, the style suffix of the
    final prompt, the active-operation test of `/stop` and the admission
    order of `/imagine`. Random draws are parameters. */
module Commands {
  import opened Wrappers
  import opened Text
  import Config
  import ContextStore
  import RateLimiting

  // ----- /imagine quick mode -----

  /** The default side of a generated image. */
  const DefaultSide: int := 1024
  /** The range `--w` and `--h` values are clamped into. */
  const MinFlagSide: int := 256
  const MaxFlagSide: int := 1920

  /** `max(lo, min(hi, n))`. */
  function ClampTo(n: int, lo: int, hi: int): int {
    if n > hi then (if lo > hi then lo else hi) else if n < lo then lo else n
  }

  /** What the argument loop has gathered so far. */
  datatype Parsed = Parsed(width: int, height: int, seed: int, words: seq<string>)

  /** A request to generate, or the usage text when there is no prompt. */
  datatype QuickOutcome = Help | Generate(prompt: string, width: int, height: int, seed: int)

  /** The argument after a flag, read as an integer. */
  function FlagValue(args: seq<string>, i: nat): Option<int> {
    if i + 1 < |args| then ParseInt(args[i + 1]) else None
  }

  /** A `seed:` token, in any case. */
  predicate IsSeedToken(a: string) {
    StartsWith(Lower(a), "seed:")
  }

  /** `int(a.split(':', 1)[1])` for a seed token. */
  function SeedValue(a: string): Option<int> {
    var pieces := SplitOnce(a, ":");
    if |pieces| == 2 then ParseInt(pieces[1]) else None
  }

  /** One turn of the argument loop at index `i`: the next index and what
      has been gathered. A flag with a readable value takes two arguments;
      a readable seed token takes one; anything else is a prompt word. */
  function Step(args: seq<string>, i: nat, p: Parsed): (r: (nat, Parsed))
    requires i < |args|
    ensures i < r.0 <= |args|
  {
    if args[i] == "--w" && FlagValue(args, i).Some? then
      (i + 2, p.(width := ClampTo(FlagValue(args, i).value, MinFlagSide, MaxFlagSide)))
    else if args[i] == "--h" && FlagValue(args, i).Some? then
      (i + 2, p.(height := ClampTo(FlagValue(args, i).value, MinFlagSide, MaxFlagSide)))
    else if IsSeedToken(args[i]) && SeedValue(args[i]).Some? then
      (i + 1, p.(seed := SeedValue(args[i]).value))
    else
      (i + 1, p.(words := p.words + [args[i]]))
  }

  /** The argument loop from index `i` to the end. */
  function ParseFrom(args: seq<string>, i: nat, p: Parsed): Parsed
    requires i <= |args|
    decreases |args| - i
  {
    if i == |args| then p
    else
      var next := Step(args, i, p);
      ParseFrom(args, next.0, next.1)
  }

  /** One unfolding of the argument loop. */
  lemma ParseFromUnfold(args: seq<string>, i: nat, p: Parsed)
    requires i < |args|
    ensures ParseFrom(args, i, p) == ParseFrom(args, Step(args, i, p).0, Step(args, i, p).1)
  {
  }

  /** A turn either keeps the words or appends the current argument. */
  lemma StepWords(args: seq<string>, i: nat, p: Parsed)
    requires i < |args|
    ensures Step(args, i, p).1.words == p.words || Step(args, i, p).1.words == p.words + [args[i]]
    ensures Step(args, i, p).1.words != p.words ==>
              Step(args, i, p).0 == i + 1 && Step(args, i, p).1 == p.(words := p.words + [args[i]])
  {
  }

  /** A `--w` or `--h` flag with a readable value sets that side. */
  lemma FlagStep(args: seq<string>, i: nat, p: Parsed, n: int)
    requires i + 1 < |args| && ParseInt(args[i + 1]) == Some(n)
    requires args[i] == "--w" || args[i] == "--h"
    ensures args[i] == "--w" ==> Step(args, i, p) == (i + 2, p.(width := ClampTo(n, MinFlagSide, MaxFlagSide)))
    ensures args[i] == "--h" ==> Step(args, i, p) == (i + 2, p.(height := ClampTo(n, MinFlagSide, MaxFlagSide)))
  {
  }

  /** A readable seed token that is not a flag sets the seed. */
  lemma SeedStep(args: seq<string>, i: nat, p: Parsed, n: int)
    requires i < |args| && IsSeedToken(args[i]) && SeedValue(args[i]) == Some(n)
    requires !(args[i] == "--w" && i + 1 < |args|) && !(args[i] == "--h" && i + 1 < |args|)
    ensures Step(args, i, p) == (i + 1, p.(seed := n))
  {
  }

  /** An argument that is neither a flag with a value nor a seed with one
      is a prompt word. */
  lemma WordStep(args: seq<string>, i: nat, p: Parsed)
    requires i < |args|
    requires args[i] == "--w" && i + 1 < |args| ==> ParseInt(args[i + 1]).None?
    requires args[i] == "--h" && i + 1 < |args| ==> ParseInt(args[i + 1]).None?
    requires !(args[i] == "--w" && i + 1 < |args|) && !(args[i] == "--h" && i + 1 < |args|) && IsSeedToken(args[i])
             ==> SeedValue(args[i]).None?
    ensures Step(args, i, p) == (i + 1, p.(words := p.words + [args[i]]))
  {
    if args[i] == "--w" || args[i] == "--h" {
      assert !IsSeedToken(args[i]) by { assert |Lower(args[i])| == 3; }
    }
  }

  /** The preset named by the first argument, in any case. */
  function LeadingPreset(args: seq<string>, presets: map<string, Config.Dimensions>): Option<Config.Dimensions> {
    if args != [] && Lower(args[0]) in presets then Some(presets[Lower(args[0])])
    else None
  }

  /** The arguments the loop sees: without the preset argument. */
  function FlagArgs(args: seq<string>, presets: map<string, Config.Dimensions>): seq<string> {
    if LeadingPreset(args, presets).Some? then args[1..] else args
  }

  /** The state before the loop: the preset's size or 1024 by 1024, and
      the pre-drawn seed. */
  function Initial(args: seq<string>, presets: map<string, Config.Dimensions>, drawnSeed: int): Parsed {
    match LeadingPreset(args, presets)
    case Some(d) => Parsed(d.width, d.height, drawnSeed, [])
    case None => Parsed(DefaultSide, DefaultSide, drawnSeed, [])
  }

  /** `_imagine_quick_mode` up to the generation call. */
  function QuickMode(args: seq<string>, presets: map<string, Config.Dimensions>, drawnSeed: int): QuickOutcome {
    var p := ParseFrom(FlagArgs(args, presets), 0, Initial(args, presets, drawnSeed));
    var prompt := Strip(Join(p.words, " "));
    if prompt == [] then Help else Generate(prompt, p.width, p.height, p.seed)
  }

  /** The parsing loop of `_imagine_quick_mode`. */
  method ImagineQuickMode(contextArgs: seq<string>, presets: map<string, Config.Dimensions>, drawnSeed: int)
    returns (outcome: QuickOutcome)
    ensures outcome == QuickMode(contextArgs, presets, drawnSeed)
  {
    var seed := drawnSeed;
    var args := contextArgs;
    var width, height := DefaultSide, DefaultSide;
    var promptParts: seq<string> := [];
    var i := 0;
    if |args| > 0 && Lower(args[0]) in presets {
      var preset := presets[Lower(args[0])];
      width, height := preset.width, preset.height;
      args := args[1..];
    }
    ghost var target := ParseFrom(FlagArgs(contextArgs, presets), 0, Initial(contextArgs, presets, drawnSeed));
    while i < |args|
      invariant i <= |args|
      invariant ParseFrom(args, i, Parsed(width, height, seed, promptParts)) == target
      decreases |args| - i
    {
      ParseFromUnfold(args, i, Parsed(width, height, seed, promptParts));
      if args[i] == "--w" && i + 1 < |args| {
        var n := ParseInt(args[i + 1]);
        if n.Some? {
          FlagStep(args, i, Parsed(width, height, seed, promptParts), n.value);
          width := ClampTo(n.value, MinFlagSide, MaxFlagSide);
          i := i + 2;
          continue;
        }
      } else if args[i] == "--h" && i + 1 < |args| {
        var n := ParseInt(args[i + 1]);
        if n.Some? {
          FlagStep(args, i, Parsed(width, height, seed, promptParts), n.value);
          height := ClampTo(n.value, MinFlagSide, MaxFlagSide);
          i := i + 2;
          continue;
        }
      } else if StartsWith(Lower(args[i]), "seed:") {
        var n := SeedValue(args[i]);
        if n.Some? {
          SeedStep(args, i, Parsed(width, height, seed, promptParts), n.value);
          seed := n.value;
          i := i + 1;
          continue;
        }
      }
      WordStep(args, i, Parsed(width, height, seed, promptParts));
      promptParts := promptParts + [args[i]];
      i := i + 1;
    }
    var prompt := Strip(Join(promptParts, " "));
    if prompt == [] {
      return Help;
    }
    return Generate(prompt, width, height, seed);
  }

  /** A side the loop sets is within [256, 1920]; otherwise the side it
      started with stays. */
  lemma {:induction false} ParseFromSides(args: seq<string>, i: nat, p: Parsed)
    requires i <= |args|
    ensures var r := ParseFrom(args, i, p);
      && (r.width == p.width || MinFlagSide <= r.width <= MaxFlagSide)
      && (r.height == p.height || MinFlagSide <= r.height <= MaxFlagSide)
    decreases |args| - i
  {
    if i < |args| {
      var next := Step(args, i, p);
      ParseFromSides(args, next.0, next.1);
    }
  }

  /** The arguments at the given positions, in that order. */
  function Picked(args: seq<string>, positions: seq<nat>): seq<string>
    requires forall j :: 0 <= j < |positions| ==> positions[j] < |args|
  {
    if positions == [] then [] else [args[positions[0]]] + Picked(args, positions[1..])
  }

  /** Picking one more position in front picks that argument first. */
  lemma PickedCons(args: seq<string>, i: nat, rest: seq<nat>)
    requires i < |args| && forall j :: 0 <= j < |rest| ==> rest[j] < |args|
    ensures Picked(args, [i] + rest) == [args[i]] + Picked(args, rest)
  {
    assert ([i] + rest)[1..] == rest;
  }

  /** The prompt words are arguments, kept in their original order: the
      gathered words are the earlier ones followed by the arguments at
      strictly increasing positions. */
  lemma {:induction false} ParseFromWordsInOrder(args: seq<string>, i: nat, p: Parsed) returns (positions: seq<nat>)
    requires i <= |args|
    ensures forall j :: 0 <= j < |positions| ==> i <= positions[j] < |args|
    ensures forall j, k :: 0 <= j < k < |positions| ==> positions[j] < positions[k]
    ensures ParseFrom(args, i, p).words == p.words + Picked(args, positions)
    decreases |args| - i
  {
    if i == |args| {
      positions := [];
    } else {
      ParseFromUnfold(args, i, p);
      StepWords(args, i, p);
      var next := Step(args, i, p);
      var rest := ParseFromWordsInOrder(args, next.0, next.1);
      if next.1.words == p.words {
        positions := rest;
      } else {
        positions := [i] + rest;
        PickedCons(args, i, rest);
      }
    }
  }

  /** Arguments with no flag and no seed token all become the prompt, in
      order, and nothing else changes. */
  lemma {:induction false} PlainArgumentsAreThePrompt(args: seq<string>, i: nat, p: Parsed)
    requires i <= |args|
    requires forall j :: i <= j < |args| ==> args[j] != "--w" && args[j] != "--h" && !IsSeedToken(args[j])
    ensures ParseFrom(args, i, p) == p.(words := p.words + args[i..])
    decreases |args| - i
  {
    if i < |args| {
      PlainArgumentsAreThePrompt(args, i + 1, p.(words := p.words + [args[i]]));
      assert p.words + [args[i]] + args[i + 1..] == p.words + args[i..];
    } else {
      assert p.words + args[i..] == p.words;
    }
  }

  /** Without a preset, flags or seed tokens the image is 1024 by 1024 with
      the pre-drawn seed, and the prompt is the arguments joined by spaces
      and stripped; a blank one gives the usage text. */
  lemma QuickModeDefaults(args: seq<string>, presets: map<string, Config.Dimensions>, drawnSeed: int)
    requires LeadingPreset(args, presets).None?
    requires forall j :: 0 <= j < |args| ==> args[j] != "--w" && args[j] != "--h" && !IsSeedToken(args[j])
    ensures Strip(Join(args, " ")) != [] ==>
              QuickMode(args, presets, drawnSeed) == Generate(Strip(Join(args, " ")), DefaultSide, DefaultSide, drawnSeed)
    ensures Strip(Join(args, " ")) == [] ==> QuickMode(args, presets, drawnSeed) == Help
  {
    assert FlagArgs(args, presets) == args;
    assert Initial(args, presets, drawnSeed) == Parsed(DefaultSide, DefaultSide, drawnSeed, []);
    PlainArgumentsAreThePrompt(args, 0, Parsed(DefaultSide, DefaultSide, drawnSeed, []));
    assert [] + args[0..] == args;
  }

  /** A generated request's sides are the preset's, the default, or a
      clamped flag value. */
  lemma QuickModeSides(args: seq<string>, presets: map<string, Config.Dimensions>, drawnSeed: int)
    ensures QuickMode(args, presets, drawnSeed).Generate? ==>
      var r := QuickMode(args, presets, drawnSeed);
      var start := Initial(args, presets, drawnSeed);
      && (r.width == start.width || MinFlagSide <= r.width <= MaxFlagSide)
      && (r.height == start.height || MinFlagSide <= r.height <= MaxFlagSide)
      && (LeadingPreset(args, presets).None? ==> start.width == DefaultSide && start.height == DefaultSide)
  {
    ParseFromSides(FlagArgs(args, presets), 0, Initial(args, presets, drawnSeed));
  }

  /** A preset argument sets the size unclamped: `wallpaper` gives
      1920 by 1080 and the rest is the prompt. */
  lemma PresetExample()
    ensures QuickMode(["wallpaper", "горы"], Config.ImageSizePresets, 7) == Generate("горы", 1920, 1080, 7)
  {
    var args := ["wallpaper", "горы"];
    assert Lower("wallpaper") == "wallpaper";
    assert FlagArgs(args, Config.ImageSizePresets) == ["горы"];
    assert |Lower("горы")| < |"seed:"|;
    PlainArgumentsAreThePrompt(["горы"], 0, Parsed(1920, 1080, 7, []));
    assert Join(["горы"], " ") == "горы";
    StripUnchanged("горы");
  }

  // ----- Final prompt -----

  /** The prompt sent to the image model: the style's text appended when the
      style key is known. */
  function FinalPrompt(prompt: string, styleKey: Option<string>): string {
    if TruthyStr(styleKey) && styleKey.value in Config.ImageStylePrompts then
      prompt + ", " + Config.ImageStylePrompts[styleKey.value]
    else prompt
  }

  /** The style text is appended exactly when the key is a known style;
      the prompt itself is always kept at the front. */
  lemma FinalPromptRule(prompt: string, styleKey: Option<string>)
    ensures StartsWith(FinalPrompt(prompt, styleKey), prompt)
    ensures FinalPrompt(prompt, styleKey) != prompt <==>
              styleKey.Some? && styleKey.value in Config.ImageStylePrompts
    ensures styleKey.Some? && styleKey.value in Config.ImageStylePrompts ==>
              FinalPrompt(prompt, styleKey) == prompt + ", " + Config.ImageStylePrompts[styleKey.value]
  {
    var r := FinalPrompt(prompt, styleKey);
    assert r[..|prompt|] == prompt;
    if styleKey.Some? && styleKey.value in Config.ImageStylePrompts {
      assert "" !in Config.ImageStylePrompts;
      assert |r| > |prompt|;
    }
  }

  /** The seed of a generation: the given one, else a fresh draw from
      [0, 2^32 - 1]. */
  function GenerationSeed(seed: Option<int>, drawn: int): (s: int)
    requires 0 <= drawn < 0x1_0000_0000
    ensures seed.Some? ==> s == seed.value
    ensures seed.None? ==> 0 <= s < 0x1_0000_0000
  {
    if seed.Some? then seed.value else drawn
  }

  // ----- /stop -----

  /** Whether `/stop` has anything to stop. */
  predicate HasActiveOperations(cm: ContextStore.ContextManager, chat: int)
    reads cm`generatingFlags, cm`userStates
  {
    cm.IsGenerating(chat, "image") || cm.IsGenerating(chat, "text")
    || cm.IsGenerating(chat, "voice") || cm.HasUserState(chat, "imagine")
  }

  /** `stop_command` without the reply texts: with nothing active nothing
      changes; otherwise every operation is stopped, afterwards nothing is
      active, and the stop reply `replyId` is queued for cleanup. */
  method StopCommand(cm: ContextStore.ContextManager, chat: int, replyId: int) returns (stopped: bool)
    requires cm.Valid()
    modifies cm`forceStopFlags, cm`contexts, cm`generatingFlags, cm`userStates, cm`cleanupMessageIds
    ensures cm.Valid()
    ensures stopped == old(HasActiveOperations(cm, chat))
    ensures !stopped ==> cm.forceStopFlags == old(cm.forceStopFlags) && cm.contexts == old(cm.contexts)
                         && cm.generatingFlags == old(cm.generatingFlags) && cm.userStates == old(cm.userStates)
                         && cm.cleanupMessageIds == old(cm.cleanupMessageIds)
    ensures stopped ==> cm.cleanupMessageIds == old(cm.cleanupMessageIds)[chat := old(cm.CleanupIds(chat)) + [replyId]]
    ensures stopped ==> !HasActiveOperations(cm, chat) && cm.IsForceStopRequested(chat)
    ensures stopped ==>
              && cm.forceStopFlags == old(cm.forceStopFlags)[chat := true]
              && cm.userStates == (if chat in old(cm.userStates) then old(cm.userStates)[chat := map[]] else old(cm.userStates))
              && cm.contexts == (if chat in old(cm.contexts) then old(cm.contexts) else old(cm.contexts)[chat := []])
              && cm.Kinds(chat) == old(cm.Kinds(chat)) - {"image", "text", "voice"}
              && (forall c :: c != chat ==> cm.Kinds(c) == old(cm.Kinds(c)))
  {
    if !HasActiveOperations(cm, chat) {
      return false;
    }
    cm.ForceStopAllOperations(chat);
    cm.AddCleanupMessage(chat, replyId);
    return true;
  }

  // ----- /imagine admission -----

  /** How `/imagine` treats a request: refused by the rate limiter, refused
      because an image is being generated, or admitted. */
  datatype Admission = RateLimited | Busy | Admitted

  /** The interval `/imagine` asks the limiter for, in seconds. */
  const ImagineMinInterval: real := 2.0

  /** `imagine_command` up to the mode choice: the rate check (two seconds
      between requests, the configured ceiling), then the image flag; only
      an admitted request is recorded with the limiter, for the user and,
      when the chat id is truthy, for the chat. The check and the record
      each read the clock: `now` and `recordNow`. */
  method ImagineCommand(cm: ContextStore.ContextManager, limiter: RateLimiting.RateLimiter,
                        user: int, chat: int, cfg: RateLimiting.Limits, now: real, recordNow: real)
    returns (outcome: Admission)
    modifies limiter`userRequests, limiter`chatRequests
    ensures outcome != RateLimited <==>
              RateLimiting.Admits(old(limiter.UserRequests(user)), old(limiter.ChatRequests(Some(chat))),
                                  Some(chat), Some(ImagineMinInterval), None, cfg, now)
    ensures outcome == Admitted <==> outcome != RateLimited && !cm.IsGenerating(chat, "image")
    ensures var recent := RateLimiting.Prune(old(limiter.UserRequests(user)), now - RateLimiting.WindowSeconds);
            limiter.userRequests == old(limiter.userRequests)[user := if outcome == Admitted then recent + [recordNow] else recent]
    ensures limiter.chatRequests ==
              if chat != 0
                 && RateLimiting.UserAdmits(old(limiter.UserRequests(user)),
                                            RateLimiting.EffectiveInterval(Some(ImagineMinInterval), cfg),
                                            RateLimiting.EffectiveMax(None, cfg), now)
              then var recent := RateLimiting.Prune(old(limiter.ChatRequests(Some(chat))), now - RateLimiting.WindowSeconds);
                   old(limiter.chatRequests)[chat := if outcome == Admitted then recent + [recordNow] else recent]
              else old(limiter.chatRequests)
  {
    var allowed := cm.CheckRateLimit(limiter, user, Some(chat), ImagineMinInterval, cfg, now);
    if !allowed {
      return RateLimited;
    }
    if cm.IsGenerating(chat, "image") {
      return Busy;
    }
    limiter.RecordRequest(user, Some(chat), recordNow);
    return Admitted;
  }
}
