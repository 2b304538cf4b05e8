# siksikbot core, modelled in Dafny

siksikbot is a Telegram chat bot that sits in front of a remote
generative-AI HTTP API (text answers, transcription, image analysis and
image generation). Under the Telegram and HTTP glue sits a layer of
deterministic logic. This project models that layer and proves
properties of it:

- **Conversation store.** `ContextStore` models the `ContextManager` class
  of `src/services/context_manager.py`. It is a Dafny class whose map
  fields are the Python dictionaries: history, per-kind "generating"
  flags, cleanup ids, user states, force-stop flags, prompt and role
  overrides, context-limit overrides, chat settings and usage counters.
  Every method states the new value of each field it may change, reads
  included, since a read creates the chat's slot. The payload builder
  `build_api_messages` is a pure function proved against the class.
- **Earlier conversation store.** `LegacyContext` models the older
  root-level `context_manager.py`. It has one global prompt, a fixed limit
  of 20 and a last-request rate check.
- **Rate limiter.** `RateLimiting` models the sliding-window limiter of
  `src/utils/rate_limiter.py`: pruning from the front, the admission
  order, recording, the wait time and the hourly sweep.
- **Gateway text logic.** `Refusal` and `Gateway` model the text logic of
  `src/services/pollinations_service.py`:
  - the refusal heuristic and the apology detector;
  - message-list validation with its in-place trim;
  - transcription clean-up;
  - the choice of reply text from the answer's shape;
  - the two request shapes of image analysis.
- **Outbound splitter.** `Outbound` models the part-splitting loop of
  `send_long_message`. It is shared by `src/utils/telegram_utils.py` and
  the root `telegram_utils.py`.
- **Command and button parsing.** `Commands` models the `/imagine` quick
  mode parser, the style suffix, the `/stop` test and the `/imagine`
  admission order. `Callbacks` models the role, settings and regenerate
  buttons.
- **Error-message classifiers.** `Decorators` and `ErrorHandler` model the
  ordered keyword rules of `src/utils/decorators.py` and
  `src/utils/error_handler.py`.

Supporting modules:

- `Wrappers` holds Option and Result.
- `Text` holds the Python string operations the core uses: `lower()` on
  ASCII and Cyrillic, `strip()`/`lstrip()` over Python's whitespace set,
  `split`, `find`, `rfind`, `startswith`, `in`, `join` and `int(str)`.
- `Config` holds the defaults and the preset tables of
  `src/config/settings.py`.

Clock readings, random draws and HTTP answers are parameters: `now`, a
`drawnSeed` or `choice`, the decoded reply, or an oracle from request to
answer. Timestamps are `real`, as `time.time()` returns a float. The
limiter's two settings are a parameter `cfg`, constrained where it
matters to the ranges the settings validators accept. With a ceiling of
1, which they accept, every chat request is refused and the wait query
of a chat with no recent request raises `IndexError`; the model shows
both.

## Model

| member | source | states |
|---|---|---|
| ContextStore.DefaultSettings | src/services/context_manager.py:72-78 | the default settings have exactly the five accepted keys |
| ContextStore.AddKeepsNewest | src/services/context_manager.py:104-111 | after an append the history is the newest `limit` entries of old history plus the new entry, in order, with the new entry last; a limit of 0 or less keeps everything |
| ContextStore.AddStaysWithinLimit | src/services/context_manager.py:106-111 | a history within a positive limit stays within it after an append; at the limit the oldest entry is dropped |
| ContextStore.ImageContextEntry | src/services/context_manager.py:321-330 | the image entry is a `system` entry flagged as image context, with no author, and its text is the fixed preamble, the analysis and the fixed closing |
| ContextStore.ValidatePrompt | src/services/context_manager.py:250-275 | the loop over the dangerous patterns returns exactly the validity predicate: non-blank, at most 2000 characters, no dangerous pattern in the lowered text |
| ContextStore.StripEmptyIffAllSpace | src/services/context_manager.py:252 | a prompt is blank after stripping iff every character is whitespace |
| ContextStore.ValidPromptIgnoresCase | src/services/context_manager.py:269-273 | two prompts with the same lower-case form are both valid or both invalid |
| ContextStore.ImpersonationRefused | src/services/context_manager.py:261-273 | a prompt starting with "you are now" in any case is refused |
| ContextStore.ResolvePrompt | src/services/context_manager.py:277-287 | resolution order is explicit prompt, then a known non-empty role, then the default |
| ContextStore.ResolvedPromptNonEmpty | src/services/context_manager.py:277-287 | with valid explicit prompts and non-empty built-in texts, the resolved prompt is never empty |
| ContextStore.BuiltInTextsNonEmpty | src/services/context_manager.py:26-59 | the default prompt and every persona text are non-empty; "" and "custom" are not persona keys |
| ContextStore.AvailableRoles | src/services/context_manager.py:299-300 | the listed roles are exactly the persona keys |
| ContextStore.PreferenceTextCases | src/services/context_manager.py:136-151 | the directive text is empty iff the language is neither ru nor en and verbosity is neither short nor long; the language directive comes first |
| ContextStore.ComposePrompt | src/services/context_manager.py:152-155 | the composed prompt is empty iff both parts are, starts with the current prompt and ends with the directives |
| ContextStore.AuthorLabel | src/services/context_manager.py:169-172 | the author label is never empty (a missing name falls back to `user-<id>`, stripped of dashes) |
| ContextStore.RenderHistoryAppend | src/services/context_manager.py:160-179 | history entries render independently: rendering a concatenation is the concatenation of renderings |
| ContextStore.RenderSingle | src/services/context_manager.py:164-179 | a plain system entry renders to nothing, an image entry to itself, a user entry to one user message prefixed by its author label and ": " |
| ContextStore.SystemHeader | src/services/context_manager.py:133-158 | at most one leading system message, present whenever the resolved prompt is non-empty, and starting with it |
| ContextStore.ApiPayload | src/services/context_manager.py:124-180 | with a non-empty prompt the payload is one system message starting with the prompt, followed by the rendered history |
| ContextStore.FirstIndicatorIsFirst | src/services/context_manager.py:201-211 | no indicator is reported iff none occurs; a reported indicator occurs and no earlier one in the list does |
| ContextStore.CleanedWith | src/services/context_manager.py:182-213 | cleaned user content is no longer than the input and has no surrounding whitespace |
| ContextStore.CleanedWithCases | src/services/context_manager.py:201-213 | without an indicator the content is only stripped; with one, everything up to the end of its first occurrence is dropped |
| ContextStore.FindIndicator | src/services/context_manager.py:202-203 | the search loop returns the first indicator in list order that occurs in the lowered text |
| ContextStore.CleanWith | src/services/context_manager.py:201-213 | the clean-up loop computes the clean-up function for any indicator list |
| ContextStore.CleanUserContent | src/services/context_manager.py:182-213 | `_clean_user_content` equals the clean-up function over the audio indicators |
| ContextStore.EffectiveLimitOrder | src/services/context_manager.py:336-341 | the limit is read from an int in the chat settings, else the per-chat override, else the global value, and stays within [1, 500] when its sources do |
| ContextStore.MirroredLimit | src/services/context_manager.py:463-472 | the value mirrored into the per-chat overrides is always within [1, 500] |
| ContextStore.ApplySettingsIgnoresUnknown | src/services/context_manager.py:459-462 | a key outside the defaults is never added or changed by an update |
| ContextStore.ApplySettingsClampsLimit | src/services/context_manager.py:463-470 | a readable `context_limit` is stored clamped into [1, 500], and a valid limit setting stays valid |
| ContextStore.MergedSettings | src/services/context_manager.py:451-455 | merged settings hold the default keys and the chat's keys; the chat's value wins |
| ContextStore.CountMessage | src/services/context_manager.py:401-425 | the total goes up by one, the user or assistant counter by one for that role, and the current persona's use count by one |
| ContextStore.AppendHistory | src/services/context_manager.py:160-180 | the loop appends exactly the rendered history after the header |
| ContextStore.SetKindIndependent | src/services/context_manager.py:215-225 | setting or clearing one (chat, kind) flag changes no other chat's or kind's flag |
| ContextStore.ContextManager.constructor | src/services/context_manager.py:12-78 | a fresh store has empty maps, the default prompt, the personas and the global limit |
| ContextStore.ContextManager.InitContext | src/services/context_manager.py:80-83 | an unknown chat gets an empty history and no flags; a known chat is untouched |
| ContextStore.ContextManager.ResetContext | src/services/context_manager.py:85-88 | a known chat's history is emptied and the chat's flags are always cleared |
| ContextStore.ContextManager.AddMessage | src/services/context_manager.py:90-118 | the history becomes the trimmed old history plus the new entry; no flag changes; usage counters are updated |
| ContextStore.ContextManager.UpdateUsageStats | src/services/context_manager.py:401-425 | the chat's counters become the counted update of the old ones (zeros for a new chat) |
| ContextStore.ContextManager.GetContext | src/services/context_manager.py:120-122 | returns the history as a value, unchanged; the only state change is the empty slot and flag set a new chat gets, so other chats are untouched |
| ContextStore.ContextManager.GetContextSize | src/services/context_manager.py:431-434 | returns the history length; the only state change is the empty slot and flag set a new chat gets |
| ContextStore.ContextManager.BuildApiMessages | src/services/context_manager.py:124-180 | returns the payload of the resolved prompt, settings and history; it starts with a system message holding the prompt; the only state change is the empty slot a new chat gets |
| ContextStore.ContextManager.SetGenerating | src/services/context_manager.py:215-221 | afterwards the (chat, kind) flag reads the given status, and only that flag changed |
| ContextStore.ContextManager.IsAnyGenerating | src/services/context_manager.py:227-229 | true iff some kind is flagged for the chat |
| ContextStore.ContextManager.CheckRateLimit | src/services/context_manager.py:231-234 | delegates to the limiter with the given interval and the configured per-minute cap: the verdict, the pruned user list and, once the user tests pass for a truthy chat, the pruned chat list |
| ContextStore.ContextManager.SetSystemPrompt | src/services/context_manager.py:236-248 | fails with "Недопустимый промпт" iff a given prompt is invalid, changing nothing; otherwise stores or clears the override, sets the role to "custom", and the effective prompt is the new one or the default |
| ContextStore.ContextManager.ResetSystemPrompt | src/services/context_manager.py:289-296 | removes the override and the role; the effective prompt is the default and the role "default" |
| ContextStore.ContextManager.SetRole | src/services/context_manager.py:302-308 | fails iff the role is unknown, changing nothing; otherwise sets the role and drops the explicit prompt so that the persona text takes effect |
| ContextStore.ContextManager.ResetRole | src/services/context_manager.py:313-315 | the role reads "default" afterwards |
| ContextStore.ContextManager.AddImageContext | src/services/context_manager.py:317-333 | appends the image entry without trimming, so the history may exceed the limit |
| ContextStore.ContextManager.SetContextLimit | src/services/context_manager.py:343-351 | fails iff the limit is below 1; otherwise stores min(limit, 500) |
| ContextStore.ContextManager.ResetContextLimit | src/services/context_manager.py:354-357 | removes the chat's override |
| ContextStore.ContextManager.TrimContext | src/services/context_manager.py:359-367 | trims the history to the current limit and returns how many entries were dropped |
| ContextStore.ContextManager.AddCleanupMessage | src/services/context_manager.py:370-377 | appends the id to the chat's list |
| ContextStore.ContextManager.ConsumeCleanupMessages | src/services/context_manager.py:379-386 | returns the ids in insertion order and leaves the list empty, so a second call returns [] |
| ContextStore.ContextManager.ClearCleanupMessages | src/services/context_manager.py:388-394 | the chat's list is empty afterwards |
| ContextStore.ContextManager.UpdateSettings | src/services/context_manager.py:457-478 | the chat's settings become the filtered, clamped update of the old ones; a readable limit is mirrored into the overrides; returns the merged settings |
| ContextStore.ContextManager.SetAutoAnalyze | src/services/context_manager.py:520-523 | stores the chat's switch |
| ContextStore.ContextManager.ToggleAutoAnalyze | src/services/context_manager.py:525-530 | returns and stores the negation of the effective switch (the global default for a new chat) |
| ContextStore.ContextManager.SetUserState | src/services/context_manager.py:532-537 | afterwards reading that state gives the stored data; the chat's other states are kept |
| ContextStore.ContextManager.ClearUserState | src/services/context_manager.py:543-551 | with a kind only that state is removed; without one every state of the chat is |
| ContextStore.ContextManager.SetForceStop | src/services/context_manager.py:557-563 | stores the chat's stop flag |
| ContextStore.ContextManager.ClearForceStop | src/services/context_manager.py:569-572 | no stop is requested for the chat afterwards |
| ContextStore.ContextManager.ForceStopAllOperations | src/services/context_manager.py:574-583 | the chat's stop flag is raised and no other chat's changes; its image, text and voice flags are cleared and no other flag of any chat changes; its user states are emptied and no other chat's change; a new chat gets an empty history |
| LegacyContext.KeepNewestAfterAdd | context_manager.py:30-39 | after an append the history is the newest 20 entries, in order, with the new entry last |
| LegacyContext.KeepNewestStaysBounded | context_manager.py:37-39 | a history of at most 20 stays at most 20; at 20 the oldest entry is dropped |
| LegacyContext.LegacyPayloadShape | context_manager.py:45-69 | a non-empty global prompt comes first as a system message, then one message per history entry, system entries included |
| LegacyContext.LegacyRenderKeepsRole | context_manager.py:57-68 | every entry keeps its role; non-user content is passed unchanged |
| LegacyContext.LegacyUserEntryLabelled | context_manager.py:60-65 | user content is the non-empty author label, ": ", then the unchanged content |
| LegacyContext.AppendLegacyHistory | context_manager.py:57-69 | the loop appends exactly the rendered history |
| LegacyContext.LegacySpacing | context_manager.py:77-86 | after an admission the same user is admitted again iff at least the interval has passed; other users are unaffected |
| LegacyContext.LegacyFirstRequest | context_manager.py:77-86 | an unknown user's last time is 0; a refusal records nothing |
| LegacyContext.InitDropsRunningFlag | context_manager.py:20-23 | for a chat without history, a raised flag is lowered by the first history access |
| LegacyContext.InitDropsRunningFlagExample | context_manager.py:20-23 | concrete case: chat 7 flagged, then initialised, reads not generating |
| LegacyContext.ContextManager.constructor | context_manager.py:8-18 | empty maps and the fixed default prompt |
| LegacyContext.ContextManager.InitContext | context_manager.py:20-23 | an unknown chat gets an empty history and its flag set to False |
| LegacyContext.ContextManager.ResetContext | context_manager.py:25-28 | a known chat's history is emptied and the flag is always False |
| LegacyContext.ContextManager.AddMessage | context_manager.py:30-39 | the history becomes the newest 20 of old history plus the entry |
| LegacyContext.ContextManager.GetContext | context_manager.py:41-43 | returns the history as a value, unchanged; a new chat gets an empty slot and a False flag, and nothing else changes |
| LegacyContext.ContextManager.BuildApiMessages | context_manager.py:45-69 | returns the payload of the global prompt and the history; a new chat gets an empty slot and a False flag, and nothing else changes |
| LegacyContext.ContextManager.SetGenerating | context_manager.py:71-75 | the flag reads the stored status; unknown chats read False |
| LegacyContext.ContextManager.CheckRateLimit | context_manager.py:77-86 | admits iff at least the interval passed since the last admission (0 for a new user), recording `now` only then |
| LegacyContext.ContextManager.SetSystemPrompt | context_manager.py:88-95 | the single global prompt becomes the given one, for every chat |
| LegacyContext.ContextManager.ResetSystemPrompt | context_manager.py:97-105 | restores exactly the initial default text |
| RateLimiting.Prune | src/utils/rate_limiter.py:17-24 | the pruned list is no longer and, when non-empty, starts at or after the cutoff |
| RateLimiting.PruneDropsOldPrefix | src/utils/rate_limiter.py:22-24 | pruning removes a prefix of the list, and every removed timestamp is before the cutoff |
| RateLimiting.PruneSorted | src/utils/rate_limiter.py:17-24 | a sorted list stays sorted and keeps exactly the timestamps at or after the cutoff |
| RateLimiting.PruneKeepsRecentLast | src/utils/rate_limiter.py:17-24 | a recent last timestamp survives pruning and stays last |
| RateLimiting.PruneIdempotent | src/utils/rate_limiter.py:17-24 | pruning twice with the same cutoff is pruning once |
| RateLimiting.CleanupOldRequests | src/utils/rate_limiter.py:17-24 | the pop-front loop computes the prune |
| RateLimiting.TooSoonIsRefused | src/utils/rate_limiter.py:48-53 | a request less than the interval after the user's last one is refused |
| RateLimiting.FullUserWindowIsRefused | src/utils/rate_limiter.py:55-57 | a user whose 60-second window holds the cap is refused |
| RateLimiting.ChatWindowRule | src/utils/rate_limiter.py:59-67 | a truthy chat whose window holds half the cap refuses; a chat of 0 or None leaves only the user tests |
| RateLimiting.FalsyOverridesUseDefaults | src/utils/rate_limiter.py:43-45 | a missing or zero interval or cap means the configured one, which as shipped is 2.0 seconds and 30 a minute, both within the validator ranges |
| RateLimiting.CapOneRefusesEveryChat | src/utils/rate_limiter.py:59-67 | with a ceiling of 1 every request from a truthy chat is refused, since the chat ceiling is 1 // 2 = 0 |
| RateLimiting.CapOneWaitRaises | src/utils/rate_limiter.py:95-101 | with a ceiling of 1 the wait query of a chat with no recent request raises instead of answering |
| RateLimiting.WaitTimeBounds | src/utils/rate_limiter.py:82-106 | the wait is never negative, and 0 for a user without requests in a chat under its ceiling; it raises exactly for a truthy chat with an empty window under a ceiling below 2 |
| RateLimiting.SweepRequests | src/utils/rate_limiter.py:114-124 | a key survives the sweep iff its list is non-empty after an hour's prune, and then holds the pruned list |
| RateLimiting.RateLimiter.constructor | src/utils/rate_limiter.py:12-15 | both maps start empty |
| RateLimiting.RateLimiter.CheckRateLimit | src/utils/rate_limiter.py:26-69 | the answer is the admission rule on the old lists; it only prunes the user's list, and the chat's list only when the user tests pass; it never appends |
| RateLimiting.RateLimiter.RecordRequest | src/utils/rate_limiter.py:71-80 | appends `now` to the user's list and, for a truthy chat, to the chat's |
| RateLimiting.RateLimiter.GetWaitTime | src/utils/rate_limiter.py:82-106 | returns the wait of the configured settings, never negative, raising only under a ceiling below 2; the user key is created and only the chat list is pruned |
| RateLimiting.RateLimiter.CleanupOldData | src/utils/rate_limiter.py:108-124 | one sweep of both maps, as the sweep states |
| RateLimiting.RecordKeepsSorted | src/utils/rate_limiter.py:71-80 | recording a time no earlier than the last keeps the list sorted |
| Refusal.RefusalRules | src/services/pollinations_service.py:528-592 | a text is a refusal iff it is non-blank and has an explicit phrase, is at most 9 characters stripped, has at most 3 words all service words, or has a formal phrase |
| Refusal.RefusalByLength | src/services/pollinations_service.py:530-564 | blank text is never a refusal; 1 to 9 stripped characters always is |
| Refusal.ExplicitPhraseRefuses | src/services/pollinations_service.py:540-559 | any explicit-refusal phrase in the lowered text makes it a refusal |
| Refusal.AroundIndicatorDetected | src/services/pollinations_service.py:328-352 | any text containing a lower-case apology phrase is an apology |
| Refusal.FallbackMessageDetected | src/services/pollinations_service.py:310-352 | each apology the bot sends is recognised as an apology |
| Refusal.FallbackMessagesDetected | src/services/pollinations_service.py:310-352 | every apology is recognised, and the empty text is not |
| Gateway.ValidateMessagesAndToken | src/services/pollinations_service.py:595-621 | fails with the first of blank token, empty list, malformed entry, leaving the list; otherwise succeeds with "" and the list trimmed in place |
| Gateway.DropOldestSuffix | src/services/pollinations_service.py:616-618 | trimming keeps a suffix, drops only while over 50000 with more than one left, and stops at one message or at most 50000 |
| Gateway.TrimmedRule | src/services/pollinations_service.py:611-619 | lists of at most 100000 are kept; longer ones become a non-empty suffix of at most 50000 or a single message |
| Gateway.WithoutPrefixRule | src/services/pollinations_service.py:280-283 | only the first prefix in list order that the text starts with is removed, and the rest is stripped; no match keeps the text |
| Gateway.WithoutSuffixRule | src/services/pollinations_service.py:293-296 | likewise for the first matching suffix |
| Gateway.CleanTranscriptionResult | src/services/pollinations_service.py:254-303 | a missing or blank answer gives nothing; a cleaned transcription is non-empty, stripped and not a refusal |
| Gateway.StripFirstPrefix | src/services/pollinations_service.py:280-283 | the loop with `break` removes the first matching prefix |
| Gateway.StripFirstSuffix | src/services/pollinations_service.py:293-296 | the loop with `break` removes the first matching suffix |
| Gateway.AttemptTranscriptionAsync | src/services/pollinations_service.py:254-303 | returns the cleaned transcription |
| Gateway.AttemptTranscriptionSync | src/services/pollinations_service.py:155-206 | as written, returns None on every path |
| Gateway.SyncTranscriptionAlwaysApologises | src/services/pollinations_service.py:67-86 | with the synchronous attempt, every supported recording yields an apology |
| Gateway.AsyncTranscriptionDelivered | src/services/pollinations_service.py:89-108 | with the asynchronous attempt, a cleaned transcription reaches the caller unchanged |
| Gateway.ReplyTextRule | src/services/pollinations_service.py:659-682 | the reply is never blank; a non-empty `choices` wins; a non-blank first content is returned unchanged |
| Gateway.SendToPollinations | src/services/pollinations_service.py:624-682 | a validation error is the reply; otherwise the reply follows the answer's shape and the list is trimmed |
| Gateway.RequestShapes | src/services/pollinations_service.py:385-429 | the first request has a system message iff a prompt is set, then the question with the image; the fallback is one user message with the instructions folded in front of the question |
| Gateway.PromptlessRetryRecovers | src/services/pollinations_service.py:385-434 | without a system prompt both attempts send the same request, yet a failed first POST can still be recovered by the second |
| Gateway.AnalyzeImageRule | src/services/pollinations_service.py:355-438 | only supported formats get an answer, never a blank one; the first attempt's answer wins, else the second attempt's, else none |
| Outbound.CutIndexRule | src/utils/telegram_utils.py:36-41 | the cut is at the last newline in the first 4000 characters, else the last space, else at 4000 |
| Outbound.RestAfterCut | src/utils/telegram_utils.py:43 | the remainder after a cut is strictly shorter, so the loop ends |
| Outbound.SplitMessage | src/utils/telegram_utils.py:34-46 | the loop produces the part list of the split function |
| Outbound.SplitPartsBounded | telegram_utils.py:28-40 | every part has at most 4000 characters; empty text gives no part; non-empty text of at most 4000 is one unchanged part |
| Outbound.SplitKeepsVisibleText | telegram_utils.py:28-40 | joining the parts keeps every non-whitespace character of the text, in order |
| Outbound.LeadingBreakGivesEmptyPart | src/utils/telegram_utils.py:36-43 | a long text whose only newline in range is at index 0 yields an empty first part |
| Outbound.Deliveries | src/utils/telegram_utils.py:48-63 | one message per part, in order; only the first replies, and only to a truthy message id |
| Outbound.EscapeMarkdown | src/utils/telegram_utils.py:27-30 | escaping is the identity |
| Outbound.DeliverParts | src/utils/telegram_utils.py:48-63 | the sending loop produces exactly the deliveries of the parts, in order |
| Outbound.SendLongMessage | src/utils/telegram_utils.py:33-63 | sends exactly the deliveries of the split parts |
| Commands.Step | src/bot/handlers/commands.py:396-420 | every turn of the argument loop advances the index and stays in range |
| Commands.FlagStep | src/bot/handlers/commands.py:397-410 | `--w N` and `--h N` with a readable N consume two arguments and set that side to N clamped into [256, 1920] |
| Commands.SeedStep | src/bot/handlers/commands.py:411-417 | a readable `seed:` token sets the seed and consumes one argument |
| Commands.WordStep | src/bot/handlers/commands.py:397-420 | a flag without a readable value, or a seed token without one, is kept as a prompt word |
| Commands.ImagineQuickMode | src/bot/handlers/commands.py:378-441 | the loop computes the quick-mode outcome: a generation request, or help when the prompt is empty |
| Commands.ParseFromSides | src/bot/handlers/commands.py:397-410 | each side is its starting value or lies in [256, 1920] |
| Commands.ParseFromWordsInOrder | src/bot/handlers/commands.py:419-422 | the prompt words are arguments at strictly increasing positions, so the original order is kept |
| Commands.PlainArgumentsAreThePrompt | src/bot/handlers/commands.py:419-420 | arguments with no flag and no seed token all become prompt words, in order, and nothing else changes |
| Commands.QuickModeDefaults | src/bot/handlers/commands.py:383-385 | without preset, flags or seed the image is 1024 by 1024 with the pre-drawn seed; an empty prompt gives help |
| Commands.QuickModeSides | src/bot/handlers/commands.py:385-410 | the final sides are the preset's, or 1024, or a clamped flag value |
| Commands.PresetExample | src/bot/handlers/commands.py:390-393 | a first argument naming a preset sets its size and is not part of the prompt |
| Commands.FinalPromptRule | src/bot/handlers/commands.py:451-454 | the final prompt starts with the prompt and differs from it iff a known style is given, then it is "prompt, style text" |
| Commands.GenerationSeed | src/bot/handlers/commands.py:447-448 | a given seed is kept; a missing one is drawn in [0, 2^32 - 1] |
| Commands.StopCommand | src/bot/handlers/commands.py:87-117 | reports a stop iff an image, text or voice flag or an `imagine` state was active; nothing changes otherwise; a stop raises only this chat's stop flag, clears its three flags and its user states, queues the stop reply's id for cleanup, and changes no other chat |
| Commands.ImagineCommand | src/bot/handlers/commands.py:261-272 | rate-limited iff the limiter refuses (2 seconds, configured cap); admitted iff also no image is being generated; both lists are pruned as the check does, and the record's own clock reading is appended to the user list and to a non-zero chat's list only on admission |
| Callbacks.ActionOfIsSplit | src/bot/handlers/callbacks.py:33 | the action is the part after the first "::" |
| Callbacks.RoleCallback | src/bot/handlers/callbacks.py:30-46 | non-role data is ignored; "reset" removes the role; a known role becomes the chat's role, its explicit prompt is dropped and the role text becomes the prompt; an unknown one gives the error reply and changes nothing |
| Callbacks.IndexOf | src/bot/handlers/callbacks.py:64 | finds a value iff it is in the order list, at a position holding it |
| Callbacks.Next | src/bot/handlers/callbacks.py:64 | a successor exists iff the current value is in the list, and is in the list |
| Callbacks.NextInCycle | src/bot/handlers/callbacks.py:64 | in a list without repeats the successor of position i is position i + 1, wrapping to 0 |
| Callbacks.PressesAdvance | src/bot/handlers/callbacks.py:61-82 | k presses move k positions around the cycle |
| Callbacks.CycleReturns | src/bot/handlers/callbacks.py:61-82 | as many presses as the list is long return to the start |
| Callbacks.VerbosityCycle | src/bot/handlers/callbacks.py:61-65 | short, normal, long, then short again |
| Callbacks.LangCycle | src/bot/handlers/callbacks.py:66-70 | auto, ru, en, then auto again |
| Callbacks.GroupModeAlternates | src/bot/handlers/callbacks.py:71-76 | mention_or_reply and always alternate |
| Callbacks.LimitCycle | src/bot/handlers/callbacks.py:77-82 | 20, 40, 60, 100, then 20 again |
| Callbacks.LimitToggleInCycle | src/bot/handlers/callbacks.py:80-82 | the new limit is the next in the cycle, or the chat's limit when the current one is off the cycle |
| Callbacks.SettingsStayInCycle | src/bot/handlers/callbacks.py:61-82 | every setting a button writes is a value of its own cycle, or the chat's limit |
| Callbacks.SettingsCallback | src/bot/handlers/callbacks.py:53-87 | applies the action for the data to the chat's settings and mirrors a readable limit into the overrides; the auto-analysis button flips only this chat's switch; other data changes nothing |
| Callbacks.ParseSize | src/bot/handlers/callbacks.py:154-156 | a parsed size has both sides in [256, 1536] |
| Callbacks.ButtonParts | src/bot/handlers/commands.py:521 | the regenerate button's data splits into "imagine" and the size |
| Callbacks.ButtonSize | src/bot/handlers/callbacks.py:154-156 | the size the button carries parses back to the clamped sides |
| Callbacks.PlainCaptionPrompt | src/bot/handlers/callbacks.py:134-135 | a stripped caption without the progress marker is its own prompt |
| Callbacks.RegenerateRoundTrip | src/bot/handlers/callbacks.py:129-157 | the button built after a generation parses back to the same prompt and the clamped size |
| Callbacks.ImagineCallback | src/bot/handlers/callbacks.py:119-185 | non-imagine data changes nothing; a bad button only queues its message for cleanup in a non-zero chat; a running image generation refuses with no change; otherwise only this chat's image flag is raised, a new chat gets an empty history, and generation starts with a fresh seed in [1, 2^31 - 1] |
| Decorators.FirstMatchFromRule | src/utils/decorators.py:65-86 | the first-match search returns a matching rule with no earlier match, or none when no rule matches |
| Decorators.FirstRuleWins | src/utils/decorators.py:65-86 | rule k is chosen iff it matches and no earlier rule does |
| Decorators.FriendlyErrorIsFirstMatch | src/utils/decorators.py:63-86 | the if/elif chain equals the first-match reading of the rule table on the lowered text |
| Decorators.DecoratorRulesInOrder | src/utils/decorators.py:67-83 | the rules are timeout, rate, auth, network, file size, validation, in that order |
| Decorators.TimeoutCase | src/utils/decorators.py:67-68 | "timeout" or "timed out" wins over every later rule |
| Decorators.RateCase | src/utils/decorators.py:70-71 | without a timeout keyword, a rate keyword gives the rate message |
| Decorators.AuthCase | src/utils/decorators.py:73-74 | the auth message is chosen before the validation rule is reached |
| Decorators.NetworkCase | src/utils/decorators.py:76-77 | with no earlier match, "network" or "connection" gives the network message |
| Decorators.FileSizeCase | src/utils/decorators.py:79-80 | with no earlier match, "file" and "size" together give the file-size message |
| Decorators.ValidationCase | src/utils/decorators.py:82-83 | with no earlier match, "validation" or "invalid" gives the validation message |
| Decorators.NoRuleCase | src/utils/decorators.py:85-86 | anything unmatched gets the default message |
| Decorators.FileSizeTests | src/utils/decorators.py:79 | the file-size rule needs both words |
| Decorators.InvalidTokenIsAuth | src/utils/decorators.py:73-83 | "invalid token" gets the auth message although it also contains "invalid" |
| ErrorHandler.NewBotError | src/utils/error_handler.py:11-31 | a bot error of any subclass keeps its kind and message |
| ErrorHandler.BotErrorDefaults | src/utils/error_handler.py:13-16 | a missing or empty reply becomes the fixed default; a missing context becomes {} |
| ErrorHandler.BotErrorIgnoresMessage | src/utils/error_handler.py:72-73 | a bot error's reply does not depend on its message |
| ErrorHandler.OtherErrorIsFirstMatch | src/utils/error_handler.py:76-94 | other errors go through timeout, rate, auth, network and file size in that order, then the default |
| ErrorHandler.HandlerRulesArePrefix | src/utils/error_handler.py:78-91 | the handler's rules are the decorator's first five, without validation |
| ErrorHandler.HandlerAgreesWithDecorator | src/utils/error_handler.py:76-94 | both classifiers give the same reply on every text the validation rule does not match |
| ErrorHandler.OnlyValidationDiffers | src/utils/error_handler.py:93-94 | text matching only the validation rule gets the default reply here and the validation reply in the decorator |

## Left out

- HTTP, files and Telegram I/O are left out: sessions, requests, base64 encoding, temporary files, `ffmpeg`, and sending, editing and deleting messages. HTTP answers are parameters or an oracle `ask`.
- `send_to_pollinations`(_async) turns HTTP exceptions into error texts, some embedding `str(e)` or the response body. These texts are left out.
- The transcription attempts and both image-analysis tries turn HTTP exceptions into None. The model represents that as a None answer.
- The asynchronous twins (`send_to_pollinations_async`, `analyze_image_async`) share the modelled logic and are not modelled separately.
- Randomness is left out. The `random.randint` draws and `random.choice` are the parameters `drawnSeed` and `choice`.
- Concurrency is left out: `show_typing`, the sleep loop of `cleanup_old_data` and its start and stop, and the cancellation polling of `_generate_image`.
- The advertisement regexes and `strip_advertisement`/`delete_advertisement` are left out. They depend on Python regular expressions.
- `export_context`, `import_context` and `get_context_summary` of the conversation store are left out (JSON and reporting only).
- Usage-stat activity timestamps are left out. `get_usage_stats` and `get_cleanup_count` are plain reads of the modelled maps.
- Settings values are strings or integers only. Other Python values and `int()` of floats in `update_settings` are left out.
- `set_context_limit`'s non-int check is left out, because the model's limit is always an integer.
- `Text.Lower` covers ASCII and Cyrillic only. `Text.ParseInt` omits underscores and non-ASCII digits. `Text.Strip` uses Python's whitespace set.
- Gateway.ContentLength counts text content only. `str()` of list-valued content is left out.
- Gateway.ChatMessage cannot hold a `content` key whose value is None. Python counts such content as the 4 characters of "None"; the model treats content as absent or a string.
- ContextStore.AuthorLabel cannot express an author whose `id` key is present but None. Python renders that author as "user-None"; the model's id is absent or an integer.
- SettingText: a non-zero integer `lang` or `verbosity` setting falls back to the default here. In the source `.lower()` raises `AttributeError` on it inside `build_api_messages`.
- The file-extension parsing of `transcribe_audio` and `analyze_image` is left out. The format is a parameter.
- RateLimiting.SweepRequests takes the key snapshot (`list(d.keys())`) as a parameter.
- RateLimiting.RateLimiter.CheckRateLimit, RateLimiting.RateLimiter.GetWaitTime and RateLimiting.SweepRequests use one clock reading `now` for both the tests and the prunes. In the source, `_cleanup_old_requests` reads the clock again on every call. Its cutoff can therefore be slightly later than the clock the tests use, and in the sweep it can differ from key to key. The model does not capture that drift.
- Commands.ImagineQuickMode and Callbacks.ImagineCallback take the preset table and the seed draw as parameters.
- The help text and reply texts of the handlers are left out.
- The rest of `imagine_callback` after the start is left out: the generation call, the force-stop check, the `finally` that clears the flag, and the alert for inline messages.
- `_safe_edit_query_message` is left out.
- `imagine_size_callback`, `imagine_style_callback` and `imagine_new_callback` are left out (menu navigation and I/O). `force_stop_callback` runs the same test, stop and cleanup queueing as Commands.StopCommand.
- The decorators' logging, `track_performance`, the reply of `handle_errors` and `handle_error` are left out (I/O).
- Of `src/config/settings.py` the model keeps the defaults and presets (`Config`) and the validator ranges of the two limiter settings (`RateLimiting.ValidLimits`). Its other settings and validators are not part of this model.
- `src/utils/health_check.py` is not part of this model.

## Findings

| source | as written | input that shows it | evidently intended | confidence | as-written member | corrected member |
|---|---|---|---|---|---|---|
| src/services/pollinations_service.py:151-206 | `_attempt_transcription` ends its successful clean-up without a `return`, so it returns None on every path | any supported recording whose answer cleans to a non-refusal text, e.g. "Привет, как дела у тебя сегодня" | return the cleaned text, as `_attempt_transcription_async` does at line 303 | high, not executed | Gateway.SyncTranscriptionAlwaysApologises | Gateway.AsyncTranscriptionDelivered |
| context_manager.py:20-23 | `init_context` sets the generating flag to False for a chat without history, and `set_generating` does not create the history first | `set_generating(7, True)`, then `add_message(7, ...)` on a fresh chat: `is_generating(7)` reads False | raising the flag keeps it raised; the newer store creates the history inside `set_generating` | medium, not executed | LegacyContext.InitDropsRunningFlag | ContextStore.ContextManager.AddMessage |
