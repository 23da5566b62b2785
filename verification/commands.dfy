/**
 * The slash commands: bot-wide admin commands on billing, per-chat
 * configuration commands for chat admins, and the read-only reports.
 *
 * Each configuration change is first a validated update of one chat record
 * (`Result<Chat, string>`, the error being the reply the bot sends); the
 * command then writes the record to the store, reloads the cached chat list
 * and answers "Done".
 */
module Commands {
  import opened Optional
  import opened Texts
  import opened Strconv
  import opened Domain
  import opened Database
  import opened HandlerState
  import opened Allowance
  import opened Telegram

  /** The handler after one update, and what it did in reply. */
  datatype Step = Step(handler: Handler, effects: seq<Effect>)

  const HelloMessage: string := "Hello, I'm Nafanya Bot!"
  const DoneMessage: string := "Done"
  const WrongArgumentsMessage: string := "Wrong number of arguments"
  const InvalidAgroMessage: string := "invalid agro format, use number from 0 to 100"
  const InvalidCooldownMessage: string := "invalid cooldown format, use number from 10 to 1440"
  const InvalidPreviewDeletionMessage: string := "invalid agro format, use `true` or `false`"
  const PromptTooLongMessage: string := "Prompt is too long, max length is 1000 symbols"
  const PromptTooShortMessage: string := "Prompt is too short, min length is 10 symbols"

  const MinAgroLevel: int := 0
  const MaxAgroLevel: int := 100
  const MinAgroCooldown: int := 10
  const MaxAgroCooldown: int := 1440
  /** Prompt bounds, in bytes of UTF-8 (Go's `len`). */
  const MinPromptBytes: int := 10
  const MaxPromptBytes: int := 1000

  /** The prompt kind `chatUpdateQuestionPrompt` passes; any other kind edits the interjection prompt. */
  const QuestionKind: string := "question"
  const RandomKind: string := "random"

  // ---------------------------------------------------------------------
  // Validated record updates
  // ---------------------------------------------------------------------

  /** `chatSetAgro`'s argument check: a decimal integer in [0, 100]. */
  function AgroArgument(args: string): (r: Result<int, string>)
    ensures r.Ok? <==> ParseInt(args).Some? && MinAgroLevel <= ParseInt(args).value <= MaxAgroLevel
    ensures r.Ok? ==> Some(r.value) == ParseInt(args)
    ensures r.Err? ==> r.error == InvalidAgroMessage
  {
    match ParseInt(args)
    case Some(v) => if v < MinAgroLevel || v > MaxAgroLevel then Err(InvalidAgroMessage) else Ok(v)
    case None => Err(InvalidAgroMessage)
  }

  /** `chatSetAgro` on the record: only the agro level changes. */
  function SetAgroLevel(c: Chat, args: string): (r: Result<Chat, string>)
    ensures r.Ok? <==> AgroArgument(args).Ok?
    ensures r.Ok? ==> r.value == c.(agroLevel := r.value.agroLevel)
    ensures r.Ok? ==> MinAgroLevel <= r.value.agroLevel <= MaxAgroLevel && ParseInt(args) == Some(r.value.agroLevel)
    ensures r.Err? ==> r.error == InvalidAgroMessage
  {
    match AgroArgument(args)
    case Ok(v) => Ok(c.(agroLevel := v))
    case Err(e) => Err(e)
  }

  /** `chatSetAgroCooldown`'s argument check: a decimal integer in [10, 1440]. */
  function CooldownArgument(args: string): (r: Result<int, string>)
    ensures r.Ok? <==> ParseInt(args).Some? && MinAgroCooldown <= ParseInt(args).value <= MaxAgroCooldown
    ensures r.Ok? ==> Some(r.value) == ParseInt(args)
    ensures r.Err? ==> r.error == InvalidCooldownMessage
  {
    match ParseInt(args)
    case Some(v) => if v < MinAgroCooldown || v > MaxAgroCooldown then Err(InvalidCooldownMessage) else Ok(v)
    case None => Err(InvalidCooldownMessage)
  }

  /** `chatSetAgroCooldown` on the record: only the cooldown changes. */
  function SetAgroCooldown(c: Chat, args: string): (r: Result<Chat, string>)
    ensures r.Ok? <==> CooldownArgument(args).Ok?
    ensures r.Ok? ==> r.value == c.(agroCooldown := r.value.agroCooldown)
    ensures r.Ok? ==> MinAgroCooldown <= r.value.agroCooldown <= MaxAgroCooldown && ParseInt(args) == Some(r.value.agroCooldown)
    ensures r.Err? ==> r.error == InvalidCooldownMessage
  {
    match CooldownArgument(args)
    case Ok(v) => Ok(c.(agroCooldown := v))
    case Err(e) => Err(e)
  }

  /** `chatSetPreviewDeletion`'s argument check: one of `strconv.ParseBool`'s spellings. */
  function PreviewDeletionArgument(args: string): (r: Result<bool, string>)
    ensures r.Ok? <==> args in TrueSpellings + FalseSpellings
    ensures r.Ok? ==> (r.value <==> args in TrueSpellings)
    ensures r.Err? ==> r.error == InvalidPreviewDeletionMessage
  {
    match ParseBool(args)
    case Some(b) => Ok(b)
    case None => Err(InvalidPreviewDeletionMessage)
  }

  /** `chatSetPreviewDeletion` on the record: only the deletion flag changes. */
  function SetPreviewDeletion(c: Chat, args: string): (r: Result<Chat, string>)
    ensures r.Ok? <==> args in TrueSpellings + FalseSpellings
    ensures r.Ok? ==> r.value == c.(deletePreviewMessages := args in TrueSpellings)
    ensures r.Err? ==> r.error == InvalidPreviewDeletionMessage
  {
    match PreviewDeletionArgument(args)
    case Ok(b) => Ok(c.(deletePreviewMessages := b))
    case Err(e) => Err(e)
  }

  /** `chatUpdatePrompt`'s length check, in bytes; "too long" is tested first. */
  function PromptArgument(args: string): (r: Result<string, string>)
    ensures r.Ok? <==> MinPromptBytes <= ByteLen(args) <= MaxPromptBytes
    ensures r.Ok? ==> r.value == args
    ensures ByteLen(args) > MaxPromptBytes ==> r == Err(PromptTooLongMessage)
    ensures ByteLen(args) < MinPromptBytes ==> r == Err(PromptTooShortMessage)
  {
    if ByteLen(args) > MaxPromptBytes then Err(PromptTooLongMessage)
    else if ByteLen(args) < MinPromptBytes then Err(PromptTooShortMessage)
    else Ok(args)
  }

  /** `chatUpdatePrompt` on the record: exactly one of the two prompts becomes the argument. */
  function UpdatePrompt(c: Chat, kind: string, args: string): (r: Result<Chat, string>)
    ensures r.Ok? <==> MinPromptBytes <= ByteLen(args) <= MaxPromptBytes
    ensures r.Ok? && kind == QuestionKind ==> r.value == c.(questionPrompt := args)
    ensures r.Ok? && kind != QuestionKind ==> r.value == c.(randomInterferencePrompt := args)
    ensures r.Err? ==> r.error in {PromptTooLongMessage, PromptTooShortMessage}
  {
    match PromptArgument(args)
    case Err(e) => Err(e)
    case Ok(p) =>
      if kind == QuestionKind then Ok(c.(questionPrompt := p)) else Ok(c.(randomInterferencePrompt := p))
  }

  /** Where an extension starts: now for an expired entitlement, the current expiry otherwise. */
  function BillingStart(c: Chat, now: Time): Time
  {
    if c.billedTo < now then now else c.billedTo
  }

  /**
   * `chatAddDays` on the record: an expired entitlement restarts from now,
   * a running one is extended, both through `AddDate`, whose arithmetic
   * wraps for day counts of about 10^14 and more.
   */
  function ExtendBilling(c: Chat, days: int, now: Time): (r: Chat)
    ensures r == c.(billedTo := r.billedTo)
    ensures Representable(r.billedTo)
    // the extension starts at the later of now and the current expiry
    ensures Representable(BillingStart(c, now) + days * Day) ==>
              r.billedTo == (if now > c.billedTo then now else c.billedTo) + days * Day
    ensures (BillingStart(c, now) + days * Day - r.billedTo) % TwoTo64 == 0
  {
    if c.billedTo < now then c.(billedTo := AddDays(now, days))
    else c.(billedTo := AddDays(c.billedTo, days))
  }

  /** `chatMakeVIP` on the record: the entitlement runs to 2077-01-01 00:00 UTC. */
  function MakeVip(c: Chat): (r: Chat)
    ensures r == c.(billedTo := r.billedTo)
    ensures r.billedTo == VipUntil
  {
    c.(billedTo := VipUntil)
  }

  // ---------------------------------------------------------------------
  // Properties of the record updates
  // ---------------------------------------------------------------------

  /** Every agro level in range is accepted in its decimal form, and nothing else changes. */
  lemma SetAgroLevelRoundTrip(c: Chat, v: int)
    requires MinAgroLevel <= v <= MaxAgroLevel
    ensures SetAgroLevel(c, FormatInt(v)) == Ok(c.(agroLevel := v))
  {
    ParseFormatRoundTrip(v);
  }

  /** An integer outside [0, 100] is refused and the record is left as it was. */
  lemma SetAgroLevelRejectsOutOfRange(c: Chat, v: int)
    requires MinInt64 <= v <= MaxInt64
    requires v < MinAgroLevel || v > MaxAgroLevel
    ensures SetAgroLevel(c, FormatInt(v)) == Err(InvalidAgroMessage)
  {
    ParseFormatRoundTrip(v);
  }

  lemma SetAgroCooldownRoundTrip(c: Chat, v: int)
    requires MinAgroCooldown <= v <= MaxAgroCooldown
    ensures SetAgroCooldown(c, FormatInt(v)) == Ok(c.(agroCooldown := v))
  {
    ParseFormatRoundTrip(v);
  }

  lemma SetAgroCooldownRejectsOutOfRange(c: Chat, v: int)
    requires MinInt64 <= v <= MaxInt64
    requires v < MinAgroCooldown || v > MaxAgroCooldown
    ensures SetAgroCooldown(c, FormatInt(v)) == Err(InvalidCooldownMessage)
  {
    ParseFormatRoundTrip(v);
  }

  lemma SetPreviewDeletionRoundTrip(c: Chat, b: bool)
    ensures SetPreviewDeletion(c, FormatBool(b)) == Ok(c.(deletePreviewMessages := b))
  {
    ParseFormatBoolRoundTrip(b);
  }

  /**
   * The bounds count bytes: more than 1000 characters is always too long,
   * and fewer than 3 is always too short, whatever the script.
   */
  lemma PromptCharacterBounds(args: string)
    ensures |args| > MaxPromptBytes ==> PromptArgument(args) == Err(PromptTooLongMessage)
    ensures |args| < 3 ==> PromptArgument(args) == Err(PromptTooShortMessage)
  {
  }

  /**
   * Extending by a positive number of days makes the entitlement run past
   * now, as long as the new expiry is a time Go can represent.
   */
  lemma ExtendBillingCoversNow(c: Chat, days: int, now: Time)
    requires days > 0
    requires Representable(BillingStart(c, now) + days * Day)
    ensures ExtendBilling(c, days, now).billedTo > now
    ensures ExtendBilling(c, days, now).billedTo > c.billedTo
  {
  }

  /** Two extensions add up when the first leaves the entitlement running and does not wrap. */
  lemma ExtendBillingAdds(c: Chat, d1: int, d2: int, now: Time)
    requires d1 >= 0
    requires Representable(BillingStart(c, now) + d1 * Day)
    ensures ExtendBilling(ExtendBilling(c, d1, now), d2, now) == ExtendBilling(c, d1 + d2, now)
  {
  }

  /**
   * 2^57 days, a count `strconv.Atoi` accepts, wrap all the way round: an
   * expired entitlement is restarted at now and a running one is left as
   * it was.
   */
  lemma ExtendBillingFullTurn(c: Chat, now: Time)
    requires Representable(now) && Representable(c.billedTo)
    ensures c.billedTo < now ==> ExtendBilling(c, 0x200_0000_0000_0000, now) == c.(billedTo := now)
    ensures c.billedTo >= now ==> ExtendBilling(c, 0x200_0000_0000_0000, now) == c
  {
    AddDaysFullTurn(now);
    AddDaysFullTurn(c.billedTo);
  }

  // ---------------------------------------------------------------------
  // Writing back
  // ---------------------------------------------------------------------

  /**
   * The handler after `UpdateChannelConfig(c)` and `reloadChannels`: the
   * store holds `c` under its ID and every other row as before, the cache
   * mirrors the store, and the admin roster and the interjection map are
   * untouched.
   */
  ghost predicate Stored(h: Handler, h2: Handler, c: Chat)
  {
    && Valid(h2.db)
    && GetChannelConfig(h2.db, c.id) == Some(c)
    && (forall id :: id != c.id ==> GetChannelConfig(h2.db, id) == GetChannelConfig(h.db, id))
    && h2.db.botConfig == h.db.botConfig
    && h2.chats == h2.db.chats
    && h2.admins == h.admins
    && h2.chatCache == h.chatCache
  }

  /** Save the record, reload the cache, answer "Done". */
  function Commit(h: Handler, c: Chat): (r: Step)
    requires Valid(h.db)
    ensures Stored(h, r.handler, c)
    ensures r.effects == [SendText(DoneMessage)]
  {
    Step(ReloadChannels(h.(db := UpdateChannelConfig(h.db, c))), [SendText(DoneMessage)])
  }

  /** The frame every command keeps: the roster, the interjection map and the store invariant. */
  predicate CommandFrame(h: Handler, h2: Handler)
  {
    && Valid(h2.db) && h2.admins == h.admins && h2.chatCache == h.chatCache && h2.db.botConfig == h.db.botConfig
    // the cache keeps mirroring the store
    && (h.chats == h.db.chats ==> h2.chats == h2.db.chats)
  }

  // ---------------------------------------------------------------------
  // Bot-wide admin commands
  // ---------------------------------------------------------------------

  /**
   * `chatAddDays <id> <days>`: needs a roster admin and exactly two
   * space-separated arguments. A malformed number or an unknown chat is
   * dropped silently.
   */
  function ChatAddDays(h: Handler, fromId: int, args: string, now: Time): (r: Step)
    requires Valid(h.db)
    ensures CommandFrame(h, r.handler)
    ensures !IsAdmin(h.admins, fromId) ==> r == Step(h, [])
    ensures IsAdmin(h.admins, fromId) && |Split(args, " ")| != 2 ==> r == Step(h, [SendText(WrongArgumentsMessage)])
    ensures r.effects == [SendText(DoneMessage)] <==>
              && IsAdmin(h.admins, fromId)
              && |Split(args, " ")| == 2
              && ParseInt(Split(args, " ")[0]).Some?
              && GetChannelConfig(h.db, ParseInt(Split(args, " ")[0]).value).Some?
              && ParseInt(Split(args, " ")[1]).Some?
    ensures r.effects == [SendText(DoneMessage)] ==>
              var id := ParseInt(Split(args, " ")[0]).value;
              var days := ParseInt(Split(args, " ")[1]).value;
              Stored(h, r.handler, ExtendBilling(GetChannelConfig(h.db, id).value, days, now))
    ensures r.effects != [SendText(DoneMessage)] ==> r.handler == h
    // a malformed number or an unknown chat gets no answer at all
    ensures IsAdmin(h.admins, fromId) && |Split(args, " ")| == 2 && r.effects != [SendText(DoneMessage)] ==> r == Step(h, [])
  {
    if !IsAdmin(h.admins, fromId) then Step(h, [])
    else
      var parts := Split(args, " ");
      if |parts| != 2 then Step(h, [SendText(WrongArgumentsMessage)])
      else match ParseInt(parts[0])
        case None => Step(h, [])
        case Some(id) =>
          match GetChannelConfig(h.db, id)
          case None => Step(h, [])
          case Some(chat) =>
            match ParseInt(parts[1])
            case None => Step(h, [])
            case Some(days) => Commit(h, ExtendBilling(chat, days, now))
  }

  /** `chatMakeVIP <id>`: needs a roster admin; a malformed ID or an unknown chat is dropped silently. */
  function ChatMakeVip(h: Handler, fromId: int, args: string): (r: Step)
    requires Valid(h.db)
    ensures CommandFrame(h, r.handler)
    ensures r.effects == [SendText(DoneMessage)] <==>
              IsAdmin(h.admins, fromId) && ParseInt(args).Some? && GetChannelConfig(h.db, ParseInt(args).value).Some?
    ensures r.effects == [SendText(DoneMessage)] ==>
              Stored(h, r.handler, MakeVip(GetChannelConfig(h.db, ParseInt(args).value).value))
    ensures r.effects != [SendText(DoneMessage)] ==> r == Step(h, [])
  {
    if !IsAdmin(h.admins, fromId) then Step(h, [])
    else match ParseInt(args)
      case None => Step(h, [])
      case Some(id) =>
        match GetChannelConfig(h.db, id)
        case None => Step(h, [])
        case Some(chat) => Commit(h, MakeVip(chat))
  }

  /** `listChats`: a roster admin gets the listing of the cached chats with their last interjection. */
  function ListChats(h: Handler, fromId: int): (r: Step)
    ensures r.handler == h
    ensures r.effects == if IsAdmin(h.admins, fromId) then [ShowChatList(h.chats, h.chatCache)] else []
  {
    if IsAdmin(h.admins, fromId) then Step(h, [ShowChatList(h.chats, h.chatCache)]) else Step(h, [])
  }

  /** `chat <id>`: a roster admin gets the stored record of that chat. */
  function ShowStoredChat(h: Handler, fromId: int, args: string): (r: Step)
    ensures r.handler == h
    ensures |r.effects| <= 1
    ensures |r.effects| == 1 <==> IsAdmin(h.admins, fromId) && ParseInt(args).Some? && GetChannelConfig(h.db, ParseInt(args).value).Some?
    ensures |r.effects| == 1 ==> r.effects[0] == ShowChat(GetChannelConfig(h.db, ParseInt(args).value).value)
  {
    if !IsAdmin(h.admins, fromId) then Step(h, [])
    else match ParseInt(args)
      case None => Step(h, [])
      case Some(id) =>
        match GetChannelConfig(h.db, id)
        case None => Step(h, [])
        case Some(chat) => Step(h, [ShowChat(chat)])
  }

  // ---------------------------------------------------------------------
  // Per-chat commands (the chat-admin check is a parameter)
  // ---------------------------------------------------------------------

  /** `chatConfig`: the cached record of this chat, for a chat admin. */
  function ChatConfig(h: Handler, chatAdmin: bool, chatId: int): (r: Step)
    ensures r.handler == h
    ensures |r.effects| <= 1
    ensures |r.effects| == 1 <==> chatAdmin && LookupChat(h.chats, chatId).Some?
    ensures |r.effects| == 1 ==> r.effects[0] == ShowChatConfig(LookupChat(h.chats, chatId).value)
  {
    if !chatAdmin then Step(h, [])
    else match LookupChat(h.chats, chatId)
      case None => Step(h, [])
      case Some(chat) => Step(h, [ShowChatConfig(chat)])
  }

  /**
   * `chatSetAgro`: the argument is checked before the store is read; a
   * bad argument is answered with the error, an unknown chat is dropped.
   */
  function ChatSetAgro(h: Handler, chatAdmin: bool, chatId: int, args: string): (r: Step)
    requires Valid(h.db)
    ensures CommandFrame(h, r.handler)
    ensures !chatAdmin ==> r == Step(h, [])
    ensures chatAdmin && AgroArgument(args).Err? ==> r == Step(h, [SendText(InvalidAgroMessage)])
    ensures r.effects == [SendText(DoneMessage)] <==>
              chatAdmin && AgroArgument(args).Ok? && GetChannelConfig(h.db, chatId).Some?
    ensures r.effects == [SendText(DoneMessage)] ==>
              Stored(h, r.handler, SetAgroLevel(GetChannelConfig(h.db, chatId).value, args).value)
    ensures r.effects != [SendText(DoneMessage)] ==> r.handler == h
    ensures chatAdmin && AgroArgument(args).Ok? && GetChannelConfig(h.db, chatId).None? ==> r == Step(h, [])
  {
    if !chatAdmin then Step(h, [])
    else match AgroArgument(args)
      case Err(e) => Step(h, [SendText(e)])
      case Ok(_) =>
        match GetChannelConfig(h.db, chatId)
        case None => Step(h, [])
        case Some(chat) => Commit(h, SetAgroLevel(chat, args).value)
  }

  /** `chatSetAgroCooldown`, in the same order as `chatSetAgro`. */
  function ChatSetAgroCooldown(h: Handler, chatAdmin: bool, chatId: int, args: string): (r: Step)
    requires Valid(h.db)
    ensures CommandFrame(h, r.handler)
    ensures !chatAdmin ==> r == Step(h, [])
    ensures chatAdmin && CooldownArgument(args).Err? ==> r == Step(h, [SendText(InvalidCooldownMessage)])
    ensures r.effects == [SendText(DoneMessage)] <==>
              chatAdmin && CooldownArgument(args).Ok? && GetChannelConfig(h.db, chatId).Some?
    ensures r.effects == [SendText(DoneMessage)] ==>
              Stored(h, r.handler, SetAgroCooldown(GetChannelConfig(h.db, chatId).value, args).value)
    ensures r.effects != [SendText(DoneMessage)] ==> r.handler == h
    ensures chatAdmin && CooldownArgument(args).Ok? && GetChannelConfig(h.db, chatId).None? ==> r == Step(h, [])
  {
    if !chatAdmin then Step(h, [])
    else match CooldownArgument(args)
      case Err(e) => Step(h, [SendText(e)])
      case Ok(_) =>
        match GetChannelConfig(h.db, chatId)
        case None => Step(h, [])
        case Some(chat) => Commit(h, SetAgroCooldown(chat, args).value)
  }

  /** `chatSetPreviewDeletion`, in the same order as `chatSetAgro`. */
  function ChatSetPreviewDeletion(h: Handler, chatAdmin: bool, chatId: int, args: string): (r: Step)
    requires Valid(h.db)
    ensures CommandFrame(h, r.handler)
    ensures !chatAdmin ==> r == Step(h, [])
    ensures chatAdmin && PreviewDeletionArgument(args).Err? ==> r == Step(h, [SendText(InvalidPreviewDeletionMessage)])
    ensures r.effects == [SendText(DoneMessage)] <==>
              chatAdmin && PreviewDeletionArgument(args).Ok? && GetChannelConfig(h.db, chatId).Some?
    ensures r.effects == [SendText(DoneMessage)] ==>
              Stored(h, r.handler, SetPreviewDeletion(GetChannelConfig(h.db, chatId).value, args).value)
    ensures r.effects != [SendText(DoneMessage)] ==> r.handler == h
    ensures chatAdmin && PreviewDeletionArgument(args).Ok? && GetChannelConfig(h.db, chatId).None? ==> r == Step(h, [])
  {
    if !chatAdmin then Step(h, [])
    else match PreviewDeletionArgument(args)
      case Err(e) => Step(h, [SendText(e)])
      case Ok(_) =>
        match GetChannelConfig(h.db, chatId)
        case None => Step(h, [])
        case Some(chat) => Commit(h, SetPreviewDeletion(chat, args).value)
  }

  /**
   * `chatUpdatePrompt`: here the store is read first, so an unknown chat is
   * dropped before the length is checked.
   */
  function ChatUpdatePrompt(h: Handler, chatAdmin: bool, chatId: int, kind: string, args: string): (r: Step)
    requires Valid(h.db)
    ensures CommandFrame(h, r.handler)
    ensures !chatAdmin || GetChannelConfig(h.db, chatId).None? ==> r == Step(h, [])
    ensures chatAdmin && GetChannelConfig(h.db, chatId).Some? && PromptArgument(args).Err? ==>
              r == Step(h, [SendText(PromptArgument(args).error)])
    ensures r.effects == [SendText(DoneMessage)] <==>
              chatAdmin && GetChannelConfig(h.db, chatId).Some? && PromptArgument(args).Ok?
    ensures r.effects == [SendText(DoneMessage)] ==>
              Stored(h, r.handler, UpdatePrompt(GetChannelConfig(h.db, chatId).value, kind, args).value)
    ensures r.effects != [SendText(DoneMessage)] ==> r.handler == h
  {
    if !chatAdmin then Step(h, [])
    else match GetChannelConfig(h.db, chatId)
      case None => Step(h, [])
      case Some(chat) =>
        match UpdatePrompt(chat, kind, args)
        case Err(e) => Step(h, [SendText(e)])
        case Ok(c) => Commit(h, c)
  }

  // ---------------------------------------------------------------------
  // Dispatch
  // ---------------------------------------------------------------------

  /** The command names `commandHandler` recognises. */
  const CommandNames: seq<string> := [
    "start", "listChats", "chat", "chatAddDays", "chatMakeVIP", "chatConfig",
    "chatSetAgro", "chatSetAgroCooldown", "chatSetPreviewDeletion",
    "chatUpdateQuestionPrompt", "chatUpdateRandomPrompt"
  ]

  /**
   * `commandHandler`: exact dispatch on the command name. `fromId` is the
   * sender, `chatId` the chat the command was sent in, `chatAdmin` the
   * answer of `isChatAdmin` for this message.
   */
  function CommandHandler(h: Handler, cmd: Command, fromId: int, chatId: int, chatAdmin: bool, now: Time): (r: Step)
    requires Valid(h.db)
    ensures CommandFrame(h, r.handler)
    ensures cmd.name !in CommandNames ==> r == Step(h, [])
    ensures cmd.name == "start" ==> r == Step(h, [SendText(HelloMessage)])
    ensures cmd.name == "listChats" ==> r == ListChats(h, fromId)
    ensures cmd.name == "chat" ==> r == ShowStoredChat(h, fromId, cmd.arguments)
    ensures cmd.name == "chatAddDays" ==> r == ChatAddDays(h, fromId, cmd.arguments, now)
    ensures cmd.name == "chatMakeVIP" ==> r == ChatMakeVip(h, fromId, cmd.arguments)
    ensures cmd.name == "chatConfig" ==> r == ChatConfig(h, chatAdmin, chatId)
    ensures cmd.name == "chatSetAgro" ==> r == ChatSetAgro(h, chatAdmin, chatId, cmd.arguments)
    ensures cmd.name == "chatSetAgroCooldown" ==> r == ChatSetAgroCooldown(h, chatAdmin, chatId, cmd.arguments)
    ensures cmd.name == "chatSetPreviewDeletion" ==> r == ChatSetPreviewDeletion(h, chatAdmin, chatId, cmd.arguments)
    ensures cmd.name == "chatUpdateQuestionPrompt" ==> r == ChatUpdatePrompt(h, chatAdmin, chatId, QuestionKind, cmd.arguments)
    ensures cmd.name == "chatUpdateRandomPrompt" ==> r == ChatUpdatePrompt(h, chatAdmin, chatId, RandomKind, cmd.arguments)
  {
    match cmd.name
    case "start" => Step(h, [SendText(HelloMessage)])
    case "listChats" => ListChats(h, fromId)
    case "chat" => ShowStoredChat(h, fromId, cmd.arguments)
    case "chatAddDays" => ChatAddDays(h, fromId, cmd.arguments, now)
    case "chatMakeVIP" => ChatMakeVip(h, fromId, cmd.arguments)
    case "chatConfig" => ChatConfig(h, chatAdmin, chatId)
    case "chatSetAgro" => ChatSetAgro(h, chatAdmin, chatId, cmd.arguments)
    case "chatSetAgroCooldown" => ChatSetAgroCooldown(h, chatAdmin, chatId, cmd.arguments)
    case "chatSetPreviewDeletion" => ChatSetPreviewDeletion(h, chatAdmin, chatId, cmd.arguments)
    case "chatUpdateQuestionPrompt" => ChatUpdatePrompt(h, chatAdmin, chatId, QuestionKind, cmd.arguments)
    case "chatUpdateRandomPrompt" => ChatUpdatePrompt(h, chatAdmin, chatId, RandomKind, cmd.arguments)
    case _ => Step(h, [])
  }

  // ---------------------------------------------------------------------
  // Properties across commands
  // ---------------------------------------------------------------------

  /**
   * `chatAddDays <id> <days>` with a positive number of days on any stored
   * chat, sent by a roster admin: once the cache is reloaded the chat is
   * served at that same instant, expired before or not.
   */
  lemma AddDaysThenAllowed(h: Handler, fromId: int, id: int, days: int, now: Time)
    requires Valid(h.db)
    requires IsAdmin(h.admins, fromId)
    requires MinInt64 <= id <= MaxInt64 && 0 < days <= MaxInt64
    requires GetChannelConfig(h.db, id).Some?
    requires Representable(BillingStart(GetChannelConfig(h.db, id).value, now) + days * Day)
    ensures var r := ChatAddDays(h, fromId, FormatInt(id) + " " + FormatInt(days), now);
            r.effects == [SendText(DoneMessage)] && CheckAllowed(r.handler.chats, id, now)
  {
    var args := FormatInt(id) + " " + FormatInt(days);
    SplitTwoWords(FormatInt(id), FormatInt(days));
    assert Split(args, " ") == [FormatInt(id), FormatInt(days)];
    ParseFormatRoundTrip(id);
    ParseFormatRoundTrip(days);
    var r := ChatAddDays(h, fromId, args, now);
    var c := ExtendBilling(GetChannelConfig(h.db, id).value, days, now);
    assert c.id == id;
    assert LookupChat(r.handler.chats, id) == Some(c);
    AllowedIffNotExpired(r.handler.chats, id, now);
  }

  /**
   * `chatAddDays <id> 144115188075855872` (2^57 days) on an expired chat is
   * answered "Done", yet the expiry is set to now, so the chat is refused
   * at every later instant.
   */
  lemma AddDaysFullTurnNotServedLater(h: Handler, fromId: int, id: int, now: Time, later: Time)
    requires Valid(h.db)
    requires IsAdmin(h.admins, fromId)
    requires MinInt64 <= id <= MaxInt64
    requires GetChannelConfig(h.db, id).Some?
    requires Representable(now) && Representable(GetChannelConfig(h.db, id).value.billedTo)
    requires GetChannelConfig(h.db, id).value.billedTo < now < later
    ensures var r := ChatAddDays(h, fromId, FormatInt(id) + " " + FormatInt(0x200_0000_0000_0000), now);
            r.effects == [SendText(DoneMessage)] && !CheckAllowed(r.handler.chats, id, later)
  {
    var days := 0x200_0000_0000_0000;
    var args := FormatInt(id) + " " + FormatInt(days);
    SplitTwoWords(FormatInt(id), FormatInt(days));
    assert Split(args, " ") == [FormatInt(id), FormatInt(days)];
    ParseFormatRoundTrip(id);
    ParseFormatRoundTrip(days);
    var stored := GetChannelConfig(h.db, id).value;
    ExtendBillingFullTurn(stored, now);
    var r := ChatAddDays(h, fromId, args, now);
    assert LookupChat(r.handler.chats, id) == Some(stored.(billedTo := now));
    AllowedIffNotExpired(r.handler.chats, id, later);
  }

  /** A chat made VIP is served at every instant up to 2077-01-01 00:00 UTC. */
  lemma MakeVipThenAllowed(h: Handler, fromId: int, id: int, now: Time)
    requires Valid(h.db)
    requires IsAdmin(h.admins, fromId)
    requires MinInt64 <= id <= MaxInt64
    requires GetChannelConfig(h.db, id).Some?
    requires now <= VipUntil
    ensures var r := ChatMakeVip(h, fromId, FormatInt(id));
            CheckAllowed(r.handler.chats, id, now)
  {
    ParseFormatRoundTrip(id);
    var r := ChatMakeVip(h, fromId, FormatInt(id));
    assert LookupChat(r.handler.chats, id) == Some(MakeVip(GetChannelConfig(h.db, id).value));
    AllowedIffNotExpired(r.handler.chats, id, now);
  }

  /**
   * After a successful `chatSetAgro` the cached record, the one the
   * scheduler reads, carries the new level and nothing else differs.
   */
  lemma SetAgroVisibleAfterReload(h: Handler, chatId: int, v: int)
    requires Valid(h.db)
    requires GetChannelConfig(h.db, chatId).Some?
    requires MinAgroLevel <= v <= MaxAgroLevel
    ensures var r := ChatSetAgro(h, true, chatId, FormatInt(v));
            r.effects == [SendText(DoneMessage)]
            && LookupChat(r.handler.chats, chatId) == Some(GetChannelConfig(h.db, chatId).value.(agroLevel := v))
  {
    SetAgroLevelRoundTrip(GetChannelConfig(h.db, chatId).value, v);
  }

  /** No command changes who is a roster admin. */
  lemma CommandsKeepAdmins(h: Handler, cmd: Command, fromId: int, chatId: int, chatAdmin: bool, now: Time, who: int)
    requires Valid(h.db)
    ensures IsAdmin(CommandHandler(h, cmd, fromId, chatId, chatAdmin, now).handler.admins, who) == IsAdmin(h.admins, who)
  {
  }

  /**
   * Reloading never changes the roster either, not even after the store's
   * roster grew: the handler keeps the snapshot taken at construction.
   */
  lemma AddAdminNeedsRestart(h: Handler, who: int)
    requires h.db.botConfig.Some?
    requires !IsAdmin(h.admins, who)
    ensures AddAdmin(h.db, who).Some?
    ensures !IsAdmin(ReloadChannels(h.(db := AddAdmin(h.db, who).value)).admins, who)
    ensures IsAdmin(NewHandler(AddAdmin(h.db, who).value).admins, who)
  {
  }
}
