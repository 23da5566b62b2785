/**
 * The persistent store as an abstract value: the table of chat rows and the
 * single bot-configuration row holding the admin roster. Every operation is
 * a pure function from store to store; read and write failures of the real
 * database are not modelled.
 */
module Database {
  import opened Optional
  import opened Domain

  datatype Store = Store(chats: seq<Chat>, botConfig: Option<seq<int>>)

  /** The store's invariant: the chat ID is a primary key. */
  predicate Valid(db: Store)
  {
    UniqueIds(db.chats)
  }

  /**
   * Opening the store creates the bot configuration, holding only the
   * default admin, when no configuration row exists yet.
   */
  function Open(db: Store, defaultAdmin: int): (r: Store)
    ensures r.chats == db.chats
    ensures r.botConfig.Some?
    ensures db.botConfig.Some? ==> r == db
    ensures db.botConfig.None? ==> r.botConfig.value == [defaultAdmin]
  {
    if db.botConfig.None? then db.(botConfig := Some([defaultAdmin])) else db
  }

  /** `GetChannelConfig(id)`: the row whose primary key is `id`. */
  function GetChannelConfig(db: Store, id: int): (r: Option<Chat>)
    ensures r.None? <==> forall j :: 0 <= j < |db.chats| ==> db.chats[j].id != id
    ensures r.Some? ==> r.value in db.chats && r.value.id == id
    // in a valid store the primary key names exactly one row
    ensures Valid(db) ==> forall j :: 0 <= j < |db.chats| && db.chats[j].id == id ==> r == Some(db.chats[j])
  {
    LookupChat(db.chats, id)
  }

  /** `CreateChannelConfig(c)`: inserts a row; a duplicate primary key is refused. */
  function CreateChannelConfig(db: Store, c: Chat): (r: Store)
    requires Valid(db)
    ensures Valid(r)
    ensures r.botConfig == db.botConfig
    ensures GetChannelConfig(db, c.id).None? ==> GetChannelConfig(r, c.id) == Some(c)
    ensures GetChannelConfig(db, c.id).Some? ==> r == db
    ensures forall id :: id != c.id ==> GetChannelConfig(r, id) == GetChannelConfig(db, id)
  {
    if FindChat(db.chats, c.id).Some? then db
    else
      var r := db.(chats := db.chats + [c]);
      assert forall id :: id != c.id ==> FindChat(r.chats, id) == FindChat(db.chats, id) by {
        forall id | id != c.id ensures FindChat(r.chats, id) == FindChat(db.chats, id) {
          FindChatAppend(db.chats, c, id);
        }
      }
      FindChatAppend(db.chats, c, c.id);
      r
  }

  lemma {:induction false} FindChatAppend(chats: seq<Chat>, c: Chat, id: int)
    ensures id != c.id ==> FindChat(chats + [c], id) == FindChat(chats, id)
    ensures FindChat(chats, id).None? && id == c.id ==> FindChat(chats + [c], id) == Some(|chats|)
    decreases |chats|
  {
    if |chats| > 0 {
      assert (chats + [c])[1..] == chats[1..] + [c];
      FindChatAppend(chats[1..], c, id);
    }
  }

  /**
   * `UpdateChannelConfig(c)` (an upsert by primary key): the row with
   * `c`'s ID becomes `c`; a missing row is inserted.
   */
  function UpdateChannelConfig(db: Store, c: Chat): (r: Store)
    requires Valid(db)
    ensures Valid(r)
    ensures r.botConfig == db.botConfig
    ensures GetChannelConfig(r, c.id) == Some(c)
    ensures forall id :: id != c.id ==> GetChannelConfig(r, id) == GetChannelConfig(db, id)
  {
    match FindChat(db.chats, c.id)
    case None => CreateChannelConfig(db, c)
    case Some(i) =>
      var r := db.(chats := db.chats[i := c]);
      assert forall j :: 0 <= j < |db.chats| ==> r.chats[j].id == db.chats[j].id;
      assert forall id :: id != c.id ==> FindChat(r.chats, id) == FindChat(db.chats, id) by {
        forall id | id != c.id ensures FindChat(r.chats, id) == FindChat(db.chats, id) {
          FindChatSameIds(r.chats, db.chats, id);
        }
      }
      FindChatSameIds(r.chats, db.chats, c.id);
      r
  }

  /** The first position of an ID depends only on the IDs of the rows. */
  lemma {:induction false} FindChatSameIds(a: seq<Chat>, b: seq<Chat>, id: int)
    requires |a| == |b|
    requires forall j :: 0 <= j < |a| ==> a[j].id == b[j].id
    ensures FindChat(a, id) == FindChat(b, id)
    decreases |a|
  {
    if |a| > 0 {
      FindChatSameIds(a[1..], b[1..], id);
    }
  }

  /** `AddAdmin(id)`: appends to the roster; fails when there is no configuration row. */
  function AddAdmin(db: Store, id: int): (r: Option<Store>)
    ensures db.botConfig.None? <==> r.None?
    ensures r.Some? ==> r.value.chats == db.chats && r.value.botConfig == Some(db.botConfig.value + [id])
  {
    match db.botConfig
    case None => None
    case Some(admins) => Some(db.(botConfig := Some(admins + [id])))
  }
}
