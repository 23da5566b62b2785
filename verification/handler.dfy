/**
 * The bot's in-memory state: the cached chat list, the admin roster read at
 * start-up, the per-chat time of the last spontaneous interjection, and the
 * store the cache is reloaded from.
 */
module HandlerState {
  import opened Domain
  import opened Database

  datatype Handler = Handler(
    chats: seq<Chat>,              // cached copy of the chat table
    admins: seq<int>,              // bot-wide admins, a snapshot taken at construction
    chatCache: map<int, Time>,     // chat ID -> time of the last interjection
    db: Store)

  /**
   * `NewHandler`: loads every chat and the bot configuration; the
   * interjection map starts empty. A missing configuration row panics in
   * the source, so it is required here.
   */
  function NewHandler(db: Store): (h: Handler)
    requires db.botConfig.Some?
    ensures h.chats == db.chats && h.admins == db.botConfig.value
    ensures h.chatCache == map[] && h.db == db
  {
    Handler(db.chats, db.botConfig.value, map[], db)
  }

  /**
   * `reloadChannels`: replaces the cached chat list with the store's; the
   * admin roster and the interjection map are untouched.
   */
  function ReloadChannels(h: Handler): (r: Handler)
    ensures r.chats == h.db.chats
    ensures r.admins == h.admins && r.chatCache == h.chatCache && r.db == h.db
  {
    h.(chats := h.db.chats)
  }
}
