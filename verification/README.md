# nafanya-bot: the message handler's decisions, in Dafny

nafanya-bot is a Telegram bot that joins group chats, answers messages
addressed to it through a language model, draws pictures on request,
repairs link previews for Twitter/X and Instagram, and now and then
interjects on its own. A chat is served while its paid entitlement runs.
Per-chat settings are changed with slash commands.

This project models the decision and update rules of the handler package
(`internal/tghandler`) and of the model front end (`internal/aihandler`) as
pure functions over an explicit state:

- `Handler` holds the cached chat list, the admin roster taken at start-up,
  the per-chat time of the last interjection (`chatCache`) and the store.
- A `Step` is the next handler together with the outward `Effect`s: text,
  photo, chat action, deletion, reports.

Inputs from the outside world come in as parameters (`Events.Env`):

- the clock, as integer seconds since 1970-01-01 UTC. `AddDate` is modelled
  with Go's wrapping 64-bit arithmetic (`Domain.AddDays`), so a day count
  of about 10^14 or more comes back around;
- the `crypto/rand` draws for the interjection and the mood;
- the links `xurls` extracts;
- the answers of `isChatAdmin`, `isDeletePreview`, `getCleanDrawPrompt` and
  `domain.GetDefaultChat`, whose code is not part of this model;
- the provider name and the provider calls, as uninterpreted functions.

Text is a sequence of Unicode code points. Go's `len` is `Texts.ByteLen`,
the length of the UTF-8 encoding, because the gates in front of the model
count bytes and the bot's vocabulary is Cyrillic. `strings.Split` on a space
yields one field more than there are spaces (`Texts.SplitCountIsSpacesPlusOne`).

Modules, in the order of the program:

- `Texts` covers the `strings` functions and UTF-8 length.
- `Strconv` covers `ParseInt`/`Atoi` and `ParseBool`.
- `Domain` holds the chat record and the time constants.
- `Database` is the store as a value.
- `HandlerState` holds the handler and `reloadChannels`.
- `Allowance` covers `checkAllowed` and `isAdmin`.
- `LegacyAllowance` is the earlier revision's fixed allow-list.
- `Telegram` holds the message and effect types.
- `Scheduler` is `isItTime`.
- `Utils` covers classification and `promptCompiler`.
- `AiHandler` is the provider dispatch.
- `Preview` is `fixURLPreview`.
- `Commands` holds the slash commands.
- `Events` holds `HandleEvents`, `personalHandler` and `randomInterference`.

Where the revisions in the repository disagree, the model follows the
intent of the `tghandler`/`aihandler` revision:

- `internal/tghandler/utils.go:181` has a doubled `||`; it is read as the
  six listed prefixes.
- `internal/tghandler/allowance.go` refers to `h.channels`; it is read as the
  handler's `chats`.
- `GetPromptResponse` takes the provider name as a third argument that the
  call sites do not pass; the model takes it from `Env.model`.

`checkChatExists` is not modelled from its code. It is taken to be
membership in the cached chat list, which is how the registration branch
reads.

No code path in the program reports "model not available". An unknown
provider name gives the error "unknown model: <name>" and an empty reply.

## Model

| member | source | states |
|---|---|---|
| Scheduler.IsItTime | internal/tghandler/utils.go:36-72 | Unknown and private chats never fire and leave the map as it was. Otherwise it fires iff the draw exceeds 100 − AgroLevel AND strictly more than AgroCooldown minutes passed since the last stamp. A fire stamps `now`; a miss keeps an existing stamp and seeds the 1970 epoch for a first-seen chat; other chats' stamps are never touched |
| Scheduler.FiringDrawCount | internal/tghandler/utils.go:50-65 | Of the 100 possible draws exactly max(0, AgroLevel − 1) fire, and all 100 above level 100 |
| Scheduler.AgroExtremes | internal/tghandler/utils.go:65 | Levels 0 and 1 fire on no draw; level 100 fires on every draw except 0 |
| Scheduler.NoRefireWithinCooldown | internal/tghandler/utils.go:65-68 | After a fire at t, no call at t′ with t′ − t ≤ cooldown fires, whatever the draw |
| Scheduler.FirstCallCanFire | internal/tghandler/utils.go:57-65 | A chat never seen before is compared against the epoch, so the first passing draw fires |
| Utils.IsPersonal | internal/tghandler/utils.go:74-81 | True iff the text starts with "Нафаня" or "нафаня", or the message replies to the bot's own message; false without a reply |
| Utils.ShoutedNameNotPersonal | internal/tghandler/utils.go:75 | The name check is case-sensitive: "НАФАНЯ, привет" without a reply is not addressed to the bot |
| Utils.NamedMessagePersonal | internal/tghandler/utils.go:74-81 | A message that starts with the name is personal whatever text follows and whatever it replies to |
| Utils.UnnamedPersonalIffReplyToBot | internal/tghandler/utils.go:74-81 | Without the name, a message is personal iff it replies to the bot itself, so it is personal for at most one bot |
| Utils.IsDraw | internal/tghandler/utils.go:83-89 | True iff "нарисуй" or "Нарисуй" occurs somewhere in the text |
| Utils.IsSupportedURL | internal/tghandler/utils.go:177-186 | True iff some extracted link contains one of the six supported prefixes |
| Utils.RollEmotion | internal/tghandler/utils.go:96-105 | A draw in range always yields a member of the mood list |
| Utils.UserInput | internal/tghandler/utils.go:114-124 | The context is exactly "First Last: text"; a reply to a human puts "First Last: replyText\n" directly in front of it, a reply to a bot "First: replyText\n" (prefix, suffix and the length of both together) |
| Utils.BotLastNameIgnored | internal/tghandler/utils.go:119-123 | A quoted bot's last name never reaches the model |
| Utils.PromptCompiler | internal/tghandler/utils.go:107-134 | The system prompt is the chat's question or interjection template with every "{emotion}" replaced by one and the same mood; any other kind gives ""; the second half is the user context |
| Utils.PromptWithoutPlaceholderUnchanged | internal/tghandler/utils.go:126-131 | A question or interjection template without the placeholder is sent exactly as configured, whatever mood is drawn |
| Allowance.CheckAllowed | internal/tghandler/allowance.go:9-19 | True iff the first cached chat with the ID has an expiry not before now; an expiry equal to now is still served |
| Allowance.UnknownChatNotAllowed | internal/tghandler/allowance.go:10-15 | A chat absent from the cache is never served |
| Allowance.AllowedIffNotExpired | internal/tghandler/allowance.go:14-18 | For a cached chat, served iff now ≤ BilledTo of the record the lookup returns |
| Allowance.IsAdmin | internal/tghandler/admin.go:3-11 | True iff the ID is on the roster (so false for every ID on an empty roster) |
| Allowance.IsAdminIgnoresOrder | internal/tghandler/admin.go:4-10 | The answer depends only on the roster's set of members, not on order or duplicates |
| LegacyAllowance.CheckAllowed | internal/tgHandler/allowance.go:13-20 | The early-exit scan returns true iff the ID is on the fixed list, with no state involved |
| LegacyAllowance.AllowListMembers | internal/tgHandler/allowance.go:3-11 | All seven IDs are accepted, including the three negative group IDs; 0 is not |
| HandlerState.NewHandler | internal/tghandler/messages.go:33-52 | The handler starts with the stored chats, the stored roster and an empty interjection map |
| HandlerState.ReloadChannels | internal/tghandler/utils.go:136-143 | Only the cached chat list changes; the roster and the interjection map stay |
| Database.Open | internal/domain/database.go:28-36 | A store without a configuration row gets one holding only the default admin; an existing one is kept |
| Database.GetChannelConfig | internal/domain/database.go:49-57 | The lookup by primary key: none iff no row has the ID; in a valid store, the one row with that ID |
| Database.CreateChannelConfig | internal/domain/database.go:59-61 | A new ID is inserted and found afterwards; a duplicate primary key is refused; every other row is unchanged |
| Database.UpdateChannelConfig | internal/domain/database.go:63-65 | Upsert by primary key: the row becomes the record, every other row is unchanged, IDs stay unique |
| Database.AddAdmin | internal/domain/database.go:74-83 | The roster grows by the ID at the end; without a configuration row the call fails |
| AiHandler.GetPromptResponse | internal/aihandler/ai.go:24-33 | "oai" gives exactly the OpenAI path's result, "google" the Google path's; any other name, matched case-sensitively, gives "" and "unknown model: <name>" |
| AiHandler.UnknownModelCallsNoBackend | internal/aihandler/ai.go:32 | For an unknown name the result is the same whatever the backends do |
| AiHandler.GetPromptResponseOAI | internal/aihandler/ai.go:35-60 | A failure gives empty text and the error; success gives the first choice's content; no choices is an index panic, not an error |
| AiHandler.GetPromptResponseGoogle | internal/aihandler/ai.go:61-113 | A failure gives empty text and the error; success gives the in-order concatenation of every part of every candidate with content |
| AiHandler.CandidatesTextAppend | internal/aihandler/ai.go:102-112 | The text of a candidate list is the text of its first part followed by that of the rest |
| AiHandler.CandidateContribution | internal/aihandler/ai.go:104-110 | A candidate without content adds nothing; one with content adds all its parts in order |
| AiHandler.GetImageFromPrompt | internal/aihandler/ai.go:115-131 | A failure gives empty text and the error; success gives the first image's URL; no images is an index panic, not an error |
| Preview.FixOne | internal/tghandler/messages.go:497-531 | A link produces notices iff it contains one of the seven known hosts; the original is deleted only when deletion is enabled |
| Preview.FixURLPreview | internal/tghandler/messages.go:494-533 | Deletion happens only when enabled for the chat |
| Preview.FixOneRewritesHost | internal/tghandler/messages.go:498-524 | A link of a known host followed by a rest without another "https://" is re-posted once, with the host replaced by vxtwitter.com (Twitter, X) or ddinstagram.com (Instagram) and the rest unchanged |
| Preview.MobileTwitterLinkNotRouted | internal/tghandler/utils.go:177-186 | A message whose only link is a mobile.twitter.com link is not routed to the preview fix, although the fix would rewrite it |
| Preview.SupportedHostRouted | internal/tghandler/utils.go:181 | A link of each of the six supported hosts is routed to the preview fix |
| Commands.AgroArgument | internal/tghandler/messages.go:342-358 | Accepted iff the argument parses as a decimal integer in 0..100; otherwise the fixed error reply |
| Commands.SetAgroLevel | internal/tghandler/messages.go:342-367 | On success only the agro level changes, to the parsed value in 0..100; on failure the error reply |
| Commands.SetAgroLevelRoundTrip | internal/tghandler/messages.go:342-367 | Every level in 0..100, written in decimal, is accepted and sets exactly that level |
| Commands.SetAgroLevelRejectsOutOfRange | internal/tghandler/messages.go:344-346 | Every 64-bit integer outside 0..100 is refused |
| Commands.CooldownArgument | internal/tghandler/messages.go:383-399 | Accepted iff the argument parses as a decimal integer in 10..1440; otherwise the fixed error reply |
| Commands.SetAgroCooldown | internal/tghandler/messages.go:383-408 | On success only the cooldown changes, to the parsed value in 10..1440 |
| Commands.SetAgroCooldownRoundTrip | internal/tghandler/messages.go:383-408 | Every cooldown in 10..1440, written in decimal, is accepted and sets exactly that cooldown |
| Commands.SetAgroCooldownRejectsOutOfRange | internal/tghandler/messages.go:385-387 | Every 64-bit integer outside 10..1440 is refused |
| Commands.PreviewDeletionArgument | internal/tghandler/messages.go:424-436 | Accepted iff the argument is one of ParseBool's twelve spellings; true iff a true spelling |
| Commands.SetPreviewDeletion | internal/tghandler/messages.go:424-445 | On success only the deletion flag changes |
| Commands.SetPreviewDeletionRoundTrip | internal/tghandler/messages.go:424-445 | "true" and "false" set the flag to that value |
| Commands.PromptArgument | internal/tghandler/messages.go:468-474 | Accepted iff the argument has 10 to 1000 bytes; above 1000 "too long", below 10 "too short" |
| Commands.UpdatePrompt | internal/tghandler/messages.go:468-480 | On success kind "question" changes only the question prompt and every other kind only the interjection prompt |
| Commands.PromptCharacterBounds | internal/tghandler/messages.go:468-474 | More than 1000 characters is always too long and fewer than 3 always too short, whatever the script |
| Domain.AddDays | internal/tghandler/messages.go:256-258 | `AddDate(0, 0, days)` adds days·86400 seconds exactly when the result fits Go's int64 seconds count, and otherwise wraps modulo 2^64 |
| Domain.AddDaysFullTurn | internal/tghandler/messages.go:256-258 | Adding 2^57 days (675 · 2^64 seconds) leaves every representable time unchanged |
| Commands.ExtendBilling | internal/tghandler/messages.go:255-259 | Only the expiry changes. The new expiry is the later of now and the old expiry, plus the days, whenever that sum is a time Go can represent; otherwise it is that sum wrapped modulo 2^64 |
| Commands.ExtendBillingCoversNow | internal/tghandler/messages.go:255-259 | A positive extension that does not wrap ends after both now and the old expiry |
| Commands.ExtendBillingAdds | internal/tghandler/messages.go:255-259 | Extending by d1 ≥ 0 without wrapping, then by d2 at the same instant, equals extending by d1 + d2 |
| Commands.ExtendBillingFullTurn | internal/tghandler/messages.go:255-259 | 2^57 days restart an expired entitlement at now and leave a running one as it was |
| Commands.MakeVip | internal/tghandler/messages.go:291 | Only the expiry changes, to 2077-01-01 00:00 UTC |
| Commands.Commit | internal/tghandler/messages.go:260-269 | After the save and the reload, the store holds the record under its ID and every other row as before; the cache mirrors the store; the roster and the interjection map stay |
| Commands.ChatAddDays | internal/tghandler/messages.go:231-274 | Nothing for a non-admin. Not exactly two space-separated arguments gives "Wrong number of arguments". With two arguments, a bad number or an unknown chat gets no answer and changes nothing. Otherwise the extended record is stored and "Done" is sent |
| Commands.ChatMakeVip | internal/tghandler/messages.go:276-303 | For an admin with a parsable, stored ID the VIP record is stored and "Done" is sent; anything else changes nothing and sends nothing |
| Commands.ListChats | internal/tghandler/messages.go:182-203 | An admin gets the listing of the cached chats with their last interjection; others get nothing |
| Commands.ShowStoredChat | internal/tghandler/messages.go:205-229 | An admin with a parsable, stored ID gets that stored record; nothing changes |
| Commands.ChatConfig | internal/tghandler/messages.go:305-338 | A chat admin gets the cached record of the chat, when cached; nothing changes |
| Commands.ChatSetAgro | internal/tghandler/messages.go:340-379 | The argument is checked before the store is read: a bad one gets the error reply and changes nothing; a valid one for an unknown chat gets no answer and changes nothing; otherwise only the level changes and "Done" is sent |
| Commands.ChatSetAgroCooldown | internal/tghandler/messages.go:381-420 | As for the agro level, with the cooldown bounds and message; an unknown chat gets no answer |
| Commands.ChatSetPreviewDeletion | internal/tghandler/messages.go:422-457 | As for the agro level, with ParseBool and its message; an unknown chat gets no answer |
| Commands.ChatUpdatePrompt | internal/tghandler/messages.go:459-492 | The store is read first, so an unknown chat is dropped before the length check; a bad length gets its reply; otherwise the prompt is stored and "Done" is sent |
| Commands.CommandHandler | internal/tghandler/messages.go:103-128 | Each of the eleven names reaches its own handler; "chatUpdateQuestionPrompt" updates the question prompt and "chatUpdateRandomPrompt" the interjection prompt; an unknown name does nothing; "start" answers the greeting; no command touches the roster or the interjection map |
| Commands.AddDaysThenAllowed | internal/tghandler/messages.go:231-269 | An admin's "chatAddDays <id> <days>" with days > 0 on any stored chat makes the chat served at that same instant, once reloaded, whenever the new expiry does not wrap |
| Commands.AddDaysFullTurnNotServedLater | internal/tghandler/messages.go:231-269 | "chatAddDays <id> 144115188075855872" on an expired chat is answered "Done", yet the chat is refused at every later instant |
| Commands.MakeVipThenAllowed | internal/tghandler/messages.go:276-301 | A VIP chat is served at every instant up to 2077-01-01 00:00 UTC |
| Commands.SetAgroVisibleAfterReload | internal/tghandler/messages.go:367-377 | After a successful chatSetAgro the cached record carries the new level and is otherwise the stored one |
| Commands.CommandsKeepAdmins | internal/tghandler/messages.go:103-128 | No command changes who is a roster admin |
| Commands.AddAdminNeedsRestart | internal/tghandler/messages.go:39-49 | A roster entry added to the store is not seen by reloads, only by a new handler |
| Events.Deliver | internal/tghandler/messages.go:139-148 | An answer is sent as is, an error becomes the fixed apology, a panic sends nothing |
| Events.DeliverImage | internal/tghandler/messages.go:157-164 | An image is sent by URL; an error becomes the fixed apology |
| Events.Fields | internal/tghandler/messages.go:135 | The number of space-separated fields is the number of spaces plus one |
| Events.RandomInterferenceHandler | internal/tghandler/messages.go:134-151 | Something is sent iff the text has more than 20 bytes and at least 3 spaces and the chat is served; then it is "typing" followed by the model's answer to the interjection prompt |
| Events.ThreeWordsNeverInterject | internal/tghandler/messages.go:135 | A text with at most two spaces never gets an interjection, however long |
| Events.PersonalHandler | internal/tghandler/messages.go:153-180 | Nothing for a chat that is not served. The image path is taken iff the text asks for a drawing, has at least 16 bytes and contains a space, and then sends the generated image; otherwise "typing" and the model's answer to the question prompt |
| Events.CyrillicDrawRequestPassesByteGate | internal/tghandler/messages.go:155 | "Нафаня нарисуй" has 14 characters but 27 bytes, so it takes the image path |
| Events.NewChatRecord | internal/tghandler/messages.go:82-90 | The default record with the chat's ID and kind; the name is "First Last" for a private chat and the title otherwise |
| Events.HandleEvents | internal/tghandler/messages.go:55-101 | No message does nothing; every update keeps the store invariant and the roster, and a cache that mirrors the store keeps mirroring it |
| Events.UnseenChatRegistered | internal/tghandler/messages.go:81-99 | An unseen chat is stored with its ID, kind and name, becomes cached, gets no reply, and no other row or stamp changes |
| Events.StoredChatRecached | internal/tghandler/messages.go:81-99 | A chat stored but not cached: the duplicate insert changes nothing, the reload caches the chat, and nothing is sent |
| Events.CommandHasPriority | internal/tghandler/messages.go:62-66 | A command in a known chat is handled as a command, whatever its text, and never stamps the cooldown map |
| Events.PersonalBeforeLinksAndInterjection | internal/tghandler/messages.go:67-70 | A personal message is answered by the personal handler alone |
| Events.LinksBeforeInterjection | internal/tghandler/messages.go:71-74 | A supported link in a non-personal message is repaired and takes no interjection draw |
| Events.CooldownStampOnlyInLastBranch | internal/tghandler/messages.go:62-79 | The cooldown map changes only for a known chat with no command, no personal address and no supported link, and then exactly as the scheduler decides |
| Events.InterjectionFollowsScheduler | internal/tghandler/messages.go:75-78 | A plain message in a known chat (no command, not personal, no supported link) keeps the scheduler's cooldown map and interjects exactly when the scheduler fires |
| Events.NoFireNoInterjection | internal/tghandler/messages.go:75-78 | In that branch nothing is sent when the scheduler does not fire, whatever the text |
| Texts.ByteLen | internal/tghandler/messages.go:135 | Go's len is the UTF-8 length, between one and four bytes per character |
| Texts.SplitCountIsSpacesPlusOne | internal/tghandler/messages.go:135 | strings.Split on " " yields one field more than there are spaces |
| Texts.SplitTwoWords | internal/tghandler/messages.go:233-234 | Two words without spaces joined by one space split back into exactly those two words |
| Texts.ReplaceAllIsSplitJoin | internal/tghandler/messages.go:500 | ReplaceAll with a non-empty pattern equals splitting on it and joining with the replacement |
| Texts.SplitJoinRoundTrip | internal/tghandler/messages.go:233 | Joining the fields of a split with the separator gives back the text |
| Strconv.ParseFormatRoundTrip | internal/tghandler/messages.go:235 | Every 64-bit integer printed in decimal parses back to itself |
| Strconv.ParseBool | internal/tghandler/messages.go:424 | Exactly the twelve spellings parse, and exactly the six true spellings give true |
| Strconv.ParseFormatBoolRoundTrip | internal/tghandler/messages.go:424 | "true" and "false" parse back to their values |

## Left out

- Telegram I/O is left out: sending, replying (the reply-to message ID), deleting, chat actions, and the send errors the handlers only log. An action is an `Effect` in order.
- Sentry, logging, spans and `sentry.Recover` are left out. An index panic is the `Panic` reply, and the effects before it are kept.
- The text layout of `listChats`, `chat` (JSON) and `chatConfig` is not modelled. They are reports that carry the records they show.
- The database is a value. Read and write failures and the GORM timestamps are left out. Only the panics of `NewHandler` end the process; they are left out, and a missing configuration row is a precondition of `NewHandler`.
- A failed reload in `reloadChannels` is left out. Its panic is recovered by the `sentry.Recover` that `HandleEvents` defers, so it aborts the current update without "Done". By then `chats` is already the nil list, so every chat looks unseen until a reload succeeds. The model's reload always succeeds.
- Concurrency is left out: one goroutine per update races on `chatCache`. Updates are handled one at a time.
- Time zones and daylight saving in `AddDate` are left out, and the two separate `time.Now()` calls of `chatAddDays` are one instant. Time is whole seconds and a day is 86400 seconds. Sub-second precision of `time.Since` is left out.
- `GetDefaultChat`, `isChatAdmin`, `isDeletePreview`, `getCleanDrawPrompt` (a regular expression), the `xurls` extraction, `crypto/rand` and the clock are parameters. Their code is not part of this model.
- The wiring in `cmd/bot.go` and the environment loading in `internal/cfg/cfg.go` are left out.
- The legacy `internal/tgHandler/messages.go` and `internal/aiHandler/ai.go` are left out. They are send wrappers with fixed prompts.
- Provider requests are left out: the model names, safety settings and image size. Only the shaping of the answers is modelled.
- On a Google error the source walks `resp.Candidates` for logging. The model keeps only the result `("", err)`, not the nil dereference a nil response would cause.
- `%s` formatting of a Gemini part is taken as the part's text.
- Strconv.ParseInt: the contract states only the 64-bit range of a result. The syntax it accepts is fixed by its definition, and its round trip with `FormatInt` is proved in `Strconv.ParseFormatRoundTrip`.
- Preview.FixURLPreview: the contract states only the deletion condition. What each link produces is stated per link in `Preview.FixOne` and `Preview.FixOneRewritesHost`.
- Preview.FixOneRewritesHost: covers links that start with a known host and contain no second "https://". Links with several hosts are computed by `Preview.FixOne`, but no lemma describes them.
- Commands.AddDaysThenAllowed: holds only while the new expiry does not wrap; what a wrapping count does is stated by `Commands.AddDaysFullTurnNotServedLater` and `Commands.ExtendBillingFullTurn`.
- Commands.ExtendBillingCoversNow: holds only while the new expiry does not wrap, for the same reason.
- Events.HandleEvents: the contract states the frame only. Each branch is described by its own lemma: `UnseenChatRegistered`, `CommandHasPriority`, `PersonalBeforeLinksAndInterjection`, `LinksBeforeInterjection` and `InterjectionFollowsScheduler`.
