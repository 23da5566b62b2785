/**
 * `HandleEvents` and the two conversational handlers: registration of an
 * unseen chat, the priority among commands, personal messages, link
 * repair and spontaneous interjections, and the length and word-count
 * gates in front of the language model.
 *
 * Everything the handler obtains from outside for one update is bundled in
 * `Env`: the clock, both random draws, the links `xurls` extracted, the
 * answers of the helpers whose code is not part of this model, and the
 * provider backends.
 */
module Events {
  import opened Optional
  import opened Texts
  import opened Domain
  import opened Database
  import opened HandlerState
  import opened Allowance
  import opened Telegram
  import opened Scheduler
  import opened Utils
  import opened AiHandler
  import opened Preview
  import opened Commands

  const OpenAIErrorMessage: string := "Something went wrong with OpenAI API"

  datatype Env = Env(
    now: Time,
    draw: int,             // `isItTime`'s draw from [0, 100)
    emotion: int,          // `rollEmotion`'s index into the mood list
    urls: seq<string>,     // the links `xurls.Relaxed()` finds in the text
    botId: int,            // the bot's own user ID
    chatAdmin: bool,       // `isChatAdmin(update)`
    deletePreview: bool,   // `isDeletePreview(chat)`
    drawPrompt: string,    // `getCleanDrawPrompt(text)`
    defaultChat: Chat,     // `domain.GetDefaultChat()`
    model: string,         // the provider name passed to `GetPromptResponse`
    backends: Backends)

  /** The ranges the two random draws come from. */
  predicate ValidEnv(env: Env)
  {
    0 <= env.draw < 100 && 0 <= env.emotion < |EmotionList|
  }

  /** A text answer is sent as is; an error is replaced by the fixed apology; a panic sends nothing. */
  function Deliver(reply: Reply): (r: seq<Effect>)
    ensures reply.Panic? <==> r == []
    ensures reply.Answer? ==> r == [SendText(reply.text)]
    ensures reply.Failure? ==> r == [SendText(OpenAIErrorMessage)]
  {
    match reply
    case Answer(text) => [SendText(text)]
    case Failure(_) => [SendText(OpenAIErrorMessage)]
    case Panic => []
  }

  /** A generated image is sent by URL; an error is replaced by the fixed apology. */
  function DeliverImage(reply: Reply): (r: seq<Effect>)
    ensures reply.Panic? <==> r == []
    ensures reply.Answer? ==> r == [SendPhoto(reply.text)]
    ensures reply.Failure? ==> r == [SendText(OpenAIErrorMessage)]
  {
    match reply
    case Answer(url) => [SendPhoto(url)]
    case Failure(_) => [SendText(OpenAIErrorMessage)]
    case Panic => []
  }

  /** A text answer from the configured provider for the prompt of this kind. */
  function AskModel(h: Handler, m: Message, env: Env, promptType: int): (r: seq<Effect>)
    requires ValidEnv(env)
    requires LookupChat(h.chats, m.chat.id).Some?
    ensures |r| <= 1
  {
    var (prompt, userInput) := PromptCompiler(h.chats, m.chat.id, promptType, m, env.emotion);
    Deliver(GetPromptResponse(env.backends, prompt, userInput, env.model))
  }

  /** The word count `len(strings.Split(text, " "))`. */
  function Fields(text: string): (n: nat)
    ensures n == CountChar(text, ' ') + 1
  {
    SplitCountIsSpacesPlusOne(text);
    |Split(text, " ")|
  }

  /**
   * `randomInterference`: only a text of more than 20 bytes and more than
   * 3 fields, in a chat whose entitlement holds, gets an answer.
   */
  function RandomInterferenceHandler(h: Handler, m: Message, env: Env): (r: seq<Effect>)
    requires ValidEnv(env)
    ensures r != [] <==> ByteLen(m.text) > 20 && CountChar(m.text, ' ') >= 3 && CheckAllowed(h.chats, m.chat.id, env.now)
    ensures r != [] ==> r[0] == SendAction(ChatTyping) && |r| <= 2
    ensures r != [] ==> LookupChat(h.chats, m.chat.id).Some? && r == [SendAction(ChatTyping)] + AskModel(h, m, env, RandomInterference)
  {
    if ByteLen(m.text) > 20 && Fields(m.text) > 3 && CheckAllowed(h.chats, m.chat.id, env.now) then
      [SendAction(ChatTyping)] + AskModel(h, m, env, RandomInterference)
    else
      []
  }

  /** The gate in front of image generation: a draw request of at least 16 bytes and 2 fields. */
  predicate DrawRequest(text: string)
  {
    IsDraw(text) && ByteLen(text) >= 16 && Fields(text) >= 2
  }

  /**
   * `personalHandler`: nothing for a chat whose entitlement has lapsed;
   * otherwise an image for a draw request and a text answer for the rest.
   */
  function PersonalHandler(h: Handler, m: Message, env: Env): (r: seq<Effect>)
    requires ValidEnv(env)
    ensures r == [] <==> !CheckAllowed(h.chats, m.chat.id, env.now)
    ensures r != [] ==> (r[0] == SendAction(ChatUploadPhoto) <==>
                         IsDraw(m.text) && ByteLen(m.text) >= 16 && ' ' in m.text)
    ensures r != [] && r[0] != SendAction(ChatUploadPhoto) ==> r[0] == SendAction(ChatTyping)
    ensures r != [] && r[0] == SendAction(ChatUploadPhoto) ==>
              r[1..] == DeliverImage(GetImageFromPrompt(env.backends, env.drawPrompt))
    ensures r != [] && r[0] == SendAction(ChatTyping) ==>
              LookupChat(h.chats, m.chat.id).Some? && r[1..] == AskModel(h, m, env, Question)
  {
    if !CheckAllowed(h.chats, m.chat.id, env.now) then []
    else if DrawRequest(m.text) then
      [SendAction(ChatUploadPhoto)] + DeliverImage(GetImageFromPrompt(env.backends, env.drawPrompt))
    else
      [SendAction(ChatTyping)] + AskModel(h, m, env, Question)
  }

  /**
   * The record created for an unseen chat: the default template with the
   * chat's ID, kind and display name (first and last name for a private
   * chat, the title otherwise).
   */
  function NewChatRecord(defaultChat: Chat, info: ChatInfo): (c: Chat)
    ensures c == defaultChat.(id := info.id, chatType := info.chatType, chatName := c.chatName)
    ensures info.chatType == ChatTypePrivate ==> c.chatName == info.firstName + " " + info.lastName
    ensures info.chatType != ChatTypePrivate ==> c.chatName == info.title
  {
    var name := if info.chatType == ChatTypePrivate then info.firstName + " " + info.lastName else info.title;
    defaultChat.(id := info.id, chatType := info.chatType, chatName := name)
  }

  /** `checkChatExists`: the chat is in the cached list. */
  predicate ChatExists(h: Handler, id: int)
  {
    LookupChat(h.chats, id).Some?
  }

  /**
   * `HandleEvents`. A chat not yet cached is registered and nothing else
   * happens; in a known chat the first of command, personal message,
   * supported link and spontaneous interjection that applies is handled.
   */
  function HandleEvents(h: Handler, update: Option<Message>, env: Env): (r: Step)
    requires Valid(h.db) && ValidEnv(env)
    ensures Valid(r.handler.db)
    ensures r.handler.admins == h.admins
    ensures h.chats == h.db.chats ==> r.handler.chats == r.handler.db.chats
    ensures update.None? ==> r == Step(h, [])
  {
    match update
    case None => Step(h, [])
    case Some(m) =>
      if ChatExists(h, m.chat.id) then
        if m.command.Some? then
          CommandHandler(h, m.command.value, m.from.id, m.chat.id, env.chatAdmin, env.now)
        else if IsPersonal(m, env.botId) then
          Step(h, PersonalHandler(h, m, env))
        else if IsSupportedURL(env.urls) then
          Step(h, FixURLPreview(env.urls, m.from.userName, env.deletePreview))
        else
          var d := IsItTime(h.chats, h.chatCache, m.chat.id, env.draw, env.now);
          Step(h.(chatCache := d.chatCache), if d.fire then RandomInterferenceHandler(h, m, env) else [])
      else
        var c := NewChatRecord(env.defaultChat, m.chat);
        Step(ReloadChannels(h.(db := CreateChannelConfig(h.db, c))), [])
  }

  // ---------------------------------------------------------------------
  // Properties of the dispatch
  // ---------------------------------------------------------------------

  /**
   * First contact: the chat is stored with its ID, kind and display name,
   * the cache is reloaded so the chat is known from the next message on,
   * and nothing is sent.
   */
  lemma UnseenChatRegistered(h: Handler, m: Message, env: Env)
    requires Valid(h.db) && ValidEnv(env)
    requires !ChatExists(h, m.chat.id)
    requires GetChannelConfig(h.db, m.chat.id).None?
    ensures var r := HandleEvents(h, Some(m), env);
            && r.effects == []
            && r.handler.chatCache == h.chatCache
            && r.handler.chats == r.handler.db.chats
            && ChatExists(r.handler, m.chat.id)
            && GetChannelConfig(r.handler.db, m.chat.id) == Some(NewChatRecord(env.defaultChat, m.chat))
            && (forall id :: id != m.chat.id ==> GetChannelConfig(r.handler.db, id) == GetChannelConfig(h.db, id))
  {
  }

  /**
   * A chat that is stored but not cached: the insert is refused as a
   * duplicate, the store is unchanged, and the reload brings the chat into
   * the cache. Nothing is sent.
   */
  lemma StoredChatRecached(h: Handler, m: Message, env: Env)
    requires Valid(h.db) && ValidEnv(env)
    requires !ChatExists(h, m.chat.id)
    requires GetChannelConfig(h.db, m.chat.id).Some?
    ensures var r := HandleEvents(h, Some(m), env);
            && r.effects == []
            && r.handler.db == h.db
            && r.handler.chats == h.db.chats
            && r.handler.chatCache == h.chatCache
            && ChatExists(r.handler, m.chat.id)
  {
  }

  /** A command in a known chat is handled as a command, whatever its text, and never stamps the cooldown map. */
  lemma CommandHasPriority(h: Handler, m: Message, env: Env)
    requires Valid(h.db) && ValidEnv(env)
    requires ChatExists(h, m.chat.id) && m.command.Some?
    ensures HandleEvents(h, Some(m), env) == CommandHandler(h, m.command.value, m.from.id, m.chat.id, env.chatAdmin, env.now)
    ensures HandleEvents(h, Some(m), env).handler.chatCache == h.chatCache
  {
  }

  /**
   * The interjection draw happens only when no earlier branch applies: any
   * change to the cooldown map means a known chat, no command, not a
   * personal message and no supported link.
   */
  lemma CooldownStampOnlyInLastBranch(h: Handler, m: Message, env: Env)
    requires Valid(h.db) && ValidEnv(env)
    ensures var r := HandleEvents(h, Some(m), env);
            r.handler.chatCache != h.chatCache ==>
              && ChatExists(h, m.chat.id)
              && m.command.None? && !IsPersonal(m, env.botId) && !IsSupportedURL(env.urls)
              && r.handler.chatCache == IsItTime(h.chats, h.chatCache, m.chat.id, env.draw, env.now).chatCache
  {
    if ChatExists(h, m.chat.id) && m.command.Some? {
      CommandHasPriority(h, m, env);
    }
  }

  /**
   * The last branch: a plain message in a known chat consults the scheduler,
   * keeps the cooldown map it returns, and interjects only on a fire.
   */
  lemma InterjectionFollowsScheduler(h: Handler, m: Message, env: Env)
    requires Valid(h.db) && ValidEnv(env)
    requires ChatExists(h, m.chat.id) && m.command.None? && !IsPersonal(m, env.botId) && !IsSupportedURL(env.urls)
    ensures var d := IsItTime(h.chats, h.chatCache, m.chat.id, env.draw, env.now);
            HandleEvents(h, Some(m), env)
              == Step(h.(chatCache := d.chatCache), if d.fire then RandomInterferenceHandler(h, m, env) else [])
  {
  }

  /** Without a fire the last branch sends nothing, whatever the text. */
  lemma NoFireNoInterjection(h: Handler, m: Message, env: Env)
    requires Valid(h.db) && ValidEnv(env)
    requires ChatExists(h, m.chat.id) && m.command.None? && !IsPersonal(m, env.botId) && !IsSupportedURL(env.urls)
    requires !IsItTime(h.chats, h.chatCache, m.chat.id, env.draw, env.now).fire
    ensures HandleEvents(h, Some(m), env).effects == []
  {
    InterjectionFollowsScheduler(h, m, env);
  }

  /** A personal message is answered by the personal handler and never by an interjection. */
  lemma PersonalBeforeLinksAndInterjection(h: Handler, m: Message, env: Env)
    requires Valid(h.db) && ValidEnv(env)
    requires ChatExists(h, m.chat.id) && m.command.None? && IsPersonal(m, env.botId)
    ensures HandleEvents(h, Some(m), env) == Step(h, PersonalHandler(h, m, env))
  {
  }

  /**
   * A supported link in a non-personal message is repaired and does not
   * count as an interjection opportunity.
   */
  lemma LinksBeforeInterjection(h: Handler, m: Message, env: Env)
    requires Valid(h.db) && ValidEnv(env)
    requires ChatExists(h, m.chat.id) && m.command.None? && !IsPersonal(m, env.botId) && IsSupportedURL(env.urls)
    ensures HandleEvents(h, Some(m), env) == Step(h, FixURLPreview(env.urls, m.from.userName, env.deletePreview))
  {
  }

  const CyrillicDrawText: string := "Нафаня нарисуй"

  lemma CyrillicWordBytes()
    ensures ByteLen("Нафаня") == 12 && ByteLen("нарисуй") == 14
  {
    NameBytes();
    DrawWordBytes();
  }

  lemma NameBytes()
    ensures ByteLen("Нафаня") == 12
  {
    ByteLenTwoByte("Нафаня");
  }

  lemma DrawWordBytes()
    ensures ByteLen("нарисуй") == 14
  {
    ByteLenTwoByte("нарисуй");
  }

  lemma CyrillicDrawTextBytes()
    ensures ByteLen(CyrillicDrawText) == 27
  {
    assert CyrillicDrawText == "Нафаня" + " " + "нарисуй";
    CyrillicWordBytes();
    ByteLenAppend("Нафаня", " ");
    ByteLenAppend("Нафаня" + " ", "нарисуй");
  }

  lemma CyrillicDrawTextIsDraw()
    ensures IsDraw(CyrillicDrawText)
  {
    assert CyrillicDrawText[7..] == "нарисуй";
    assert HasPrefix(CyrillicDrawText[7..], "нарисуй");
  }

  lemma CyrillicDrawTextIsDrawRequest()
    ensures DrawRequest(CyrillicDrawText)
  {
    CyrillicDrawTextBytes();
    CyrillicDrawTextIsDraw();
    CyrillicDrawTextFields();
  }

  lemma CyrillicDrawTextFields()
    ensures Fields(CyrillicDrawText) >= 2
  {
    assert CyrillicDrawText[6] == ' ';
    assert ' ' in multiset(CyrillicDrawText);
  }

  /**
   * Byte lengths, not character counts: "Нафаня нарисуй" has 14 characters
   * but 27 bytes, so it passes the 16-byte draw gate and goes to image
   * generation.
   */
  lemma CyrillicDrawRequestPassesByteGate(h: Handler, m: Message, env: Env)
    requires ValidEnv(env)
    requires m.text == CyrillicDrawText
    requires CheckAllowed(h.chats, m.chat.id, env.now)
    ensures |m.text| < 16
    ensures PersonalHandler(h, m, env)[0] == SendAction(ChatUploadPhoto)
  {
    CyrillicDrawTextIsDrawRequest();
  }

  /** Three spaces are needed for an interjection, however long the text. */
  lemma ThreeWordsNeverInterject(h: Handler, m: Message, env: Env)
    requires ValidEnv(env)
    requires CountChar(m.text, ' ') <= 2
    ensures RandomInterferenceHandler(h, m, env) == []
  {
  }
}
