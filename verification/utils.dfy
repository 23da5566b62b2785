/**
 * Message classification and prompt assembly of the handler's helper file:
 * who the message is addressed to, whether it asks for a drawing, whether it
 * carries a link whose preview the bot repairs, and the prompt pair sent to
 * the language model.
 */
module Utils {
  import opened Optional
  import opened Texts
  import opened Domain
  import opened Telegram

  /** Prompt kinds. */
  const Question: int := 1
  const RandomInterference: int := 2

  /** The bot's name, in the two spellings that address it. */
  const BotNameUpper: string := "Нафаня"
  const BotNameLower: string := "нафаня"

  /**
   * `isPersonal`: the text starts with the bot's name, or else the message
   * replies to one of the bot's own messages.
   */
  function IsPersonal(m: Message, botId: int): (r: bool)
    ensures r <==> HasPrefix(m.text, BotNameUpper) || HasPrefix(m.text, BotNameLower)
                   || (m.replyTo.Some? && m.replyTo.value.from.id == botId)
  {
    if HasPrefix(m.text, BotNameUpper) || HasPrefix(m.text, BotNameLower) then true
    else if m.replyTo.Some? then m.replyTo.value.from.id == botId
    else false
  }

  /** Addressing by name is case-sensitive beyond the first letter: shouting the name does not count. */
  lemma ShoutedNameNotPersonal(m: Message, botId: int)
    requires m.text == "НАФАНЯ, привет"
    requires m.replyTo.None?
    ensures !IsPersonal(m, botId)
  {
    assert m.text[1] != BotNameUpper[1] && m.text[0] != BotNameLower[0];
  }

  /** A message is personal by name whatever follows the name and whatever it replies to. */
  lemma NamedMessagePersonal(m: Message, botId: int, rest: string)
    requires HasPrefix(m.text, BotNameUpper) || HasPrefix(m.text, BotNameLower)
    ensures IsPersonal(m.(text := m.text + rest), botId)
    ensures forall reply :: IsPersonal(m.(replyTo := reply), botId)
  {
    var t := m.text + rest;
    if HasPrefix(m.text, BotNameUpper) {
      assert t[..|BotNameUpper|] == m.text[..|BotNameUpper|];
    } else {
      assert t[..|BotNameLower|] == m.text[..|BotNameLower|];
    }
  }

  /**
   * Without the name, only a reply to the bot itself is personal: a message
   * replying to anyone else, or to nothing, is not, whatever its text.
   */
  lemma UnnamedPersonalIffReplyToBot(m: Message, botId: int)
    requires !HasPrefix(m.text, BotNameUpper) && !HasPrefix(m.text, BotNameLower)
    ensures IsPersonal(m, botId) <==> m.replyTo.Some? && m.replyTo.value.from.id == botId
    // so an unnamed message is personal for at most one bot
    ensures forall b1, b2 :: IsPersonal(m, b1) && IsPersonal(m, b2) ==> b1 == b2
  {
  }

  /** `isDraw`: the text asks for a drawing ("нарисуй", either capitalisation of the first letter). */
  function IsDraw(text: string): (r: bool)
    ensures r <==> exists i :: 0 <= i <= |text| && (HasPrefix(text[i..], "нарисуй") || HasPrefix(text[i..], "Нарисуй"))
  {
    Contains(text, "нарисуй") || Contains(text, "Нарисуй")
  }

  /** The link prefixes `isSupportedURL` looks for. */
  const SupportedPrefixes: seq<string> := [
    "https://twitter.com",
    "https://instagram.com",
    "https://www.twitter.com",
    "https://www.instagram.com",
    "https://x.com",
    "https://www.x.com"
  ]

  /** Whether `s` contains any of `patterns`. */
  function ContainsAny(s: string, patterns: seq<string>): (r: bool)
    ensures r <==> exists j :: 0 <= j < |patterns| && Contains(s, patterns[j])
  {
    if |patterns| == 0 then false
    else Contains(s, patterns[0]) || ContainsAny(s, patterns[1..])
  }

  /**
   * `isSupportedURL` over the links `xurls` extracted from the text: some
   * link contains one of the supported prefixes.
   */
  function IsSupportedURL(urls: seq<string>): (r: bool)
    ensures r <==> exists i, j :: 0 <= i < |urls| && 0 <= j < |SupportedPrefixes|
                                  && Contains(urls[i], SupportedPrefixes[j])
  {
    if |urls| == 0 then false
    else ContainsAny(urls[0], SupportedPrefixes) || IsSupportedURL(urls[1..])
  }

  /** The moods a prompt's `{emotion}` placeholder is filled with. */
  const EmotionList: seq<string> := [
    "с нейтральным отношением",
    "с пессимизмом",
    "с оптимизмом",
    "с сарказмом",
    "с раздражением",
    "с жестким негативом"
  ]

  const EmotionPlaceholder: string := "{emotion}"

  /** `rollEmotion` with its uniform draw `k` from [0, len(emotionList)) passed in. */
  function RollEmotion(k: int): (e: string)
    requires 0 <= k < |EmotionList|
    ensures e in EmotionList
  {
    EmotionList[k]
  }

  /** "First Last: text", the line naming a human author. */
  function AuthorLine(u: User, text: string): string
  {
    u.firstName + " " + u.lastName + ": " + text
  }

  /**
   * The user-context half of `promptCompiler`: the message's own line,
   * preceded by the line it replies to. A quoted bot is named by its first
   * name only.
   */
  function UserInput(m: Message): (r: string)
    ensures HasSuffix(r, AuthorLine(m.from, m.text))
    ensures m.replyTo.None? <==> r == AuthorLine(m.from, m.text)
    ensures m.replyTo.Some? && !m.replyTo.value.from.isBot ==>
              HasPrefix(r, AuthorLine(m.replyTo.value.from, m.replyTo.value.text) + "\n")
    ensures m.replyTo.Some? && m.replyTo.value.from.isBot ==>
              HasPrefix(r, m.replyTo.value.from.firstName + ": " + m.replyTo.value.text + "\n")
    ensures m.replyTo.Some? && !m.replyTo.value.from.isBot ==>
              |r| == |AuthorLine(m.replyTo.value.from, m.replyTo.value.text) + "\n"| + |AuthorLine(m.from, m.text)|
    ensures m.replyTo.Some? && m.replyTo.value.from.isBot ==>
              |r| == |m.replyTo.value.from.firstName + ": " + m.replyTo.value.text + "\n"| + |AuthorLine(m.from, m.text)|
  {
    var own := AuthorLine(m.from, m.text);
    match m.replyTo
    case None => own
    case Some(reply) =>
      if !reply.from.isBot then
        var r := AuthorLine(reply.from, reply.text) + "\n" + own;
        assert r[|r| - |own|..] == own;
        assert r[..|AuthorLine(reply.from, reply.text) + "\n"|] == AuthorLine(reply.from, reply.text) + "\n";
        r
      else
        var r := reply.from.firstName + ": " + reply.text + "\n" + own;
        assert r[|r| - |own|..] == own;
        assert r[..|reply.from.firstName + ": " + reply.text + "\n"|] == reply.from.firstName + ": " + reply.text + "\n";
        r
  }

  predicate HasSuffix(s: string, p: string)
  {
    |p| <= |s| && s[|s| - |p|..] == p
  }

  /** A quoted bot's last name never reaches the model; a quoted human's does. */
  lemma BotLastNameIgnored(m: Message, lastName: string)
    requires m.replyTo.Some?
    ensures var reply := m.replyTo.value;
            var m2 := m.(replyTo := Some(reply.(from := reply.from.(lastName := lastName))));
            reply.from.isBot ==> UserInput(m2) == UserInput(m)
  {
  }

  /**
   * `promptCompiler`: the chat's question or interjection prompt with
   * `{emotion}` filled in, and the user context. The chat must be cached:
   * the source indexes the list with the lookup's result and panics
   * otherwise.
   */
  function PromptCompiler(chats: seq<Chat>, id: int, promptType: int, m: Message, emotion: int): (r: (string, string))
    requires LookupChat(chats, id).Some?
    requires 0 <= emotion < |EmotionList|
    ensures r.1 == UserInput(m)
    ensures promptType == Question ==>
              exists e :: e in EmotionList && r.0 == ReplaceAll(LookupChat(chats, id).value.questionPrompt, EmotionPlaceholder, e)
    ensures promptType == RandomInterference ==>
              exists e :: e in EmotionList && r.0 == ReplaceAll(LookupChat(chats, id).value.randomInterferencePrompt, EmotionPlaceholder, e)
    ensures promptType != Question && promptType != RandomInterference ==> r.0 == ""
  {
    var chat := LookupChat(chats, id).value;
    var prompt :=
      if promptType == Question then ReplaceAll(chat.questionPrompt, EmotionPlaceholder, RollEmotion(emotion))
      else if promptType == RandomInterference then ReplaceAll(chat.randomInterferencePrompt, EmotionPlaceholder, RollEmotion(emotion))
      else "";
    (prompt, UserInput(m))
  }

  /** A template without the placeholder, of either kind, is sent as configured, whatever mood is drawn. */
  lemma PromptWithoutPlaceholderUnchanged(chats: seq<Chat>, id: int, m: Message, emotion: int)
    requires LookupChat(chats, id).Some?
    requires 0 <= emotion < |EmotionList|
    ensures var chat := LookupChat(chats, id).value;
            !Contains(chat.questionPrompt, EmotionPlaceholder) ==>
              PromptCompiler(chats, id, Question, m, emotion).0 == chat.questionPrompt
    ensures var chat := LookupChat(chats, id).value;
            !Contains(chat.randomInterferencePrompt, EmotionPlaceholder) ==>
              PromptCompiler(chats, id, RandomInterference, m, emotion).0 == chat.randomInterferencePrompt
  {
  }
}
