/**
 * The chat record and the constants the handlers compare against.
 *
 * Time is a whole number of seconds since 1970-01-01 00:00 UTC; a day is
 * always 86400 seconds (no time zones, no daylight saving).
 */
module Domain {
  import opened Optional
  import opened Strconv

  /** The four chat kinds Telegram reports. */
  const ChatTypeGroup: string := "group"
  const ChatTypePrivate: string := "private"
  const ChatTypeSupergroup: string := "supergroup"
  const ChatTypeChannel: string := "channel"

  type Time = int

  /** 1970-01-01 00:00 UTC, the cooldown stamp of a chat that never had an interjection. */
  const Epoch: Time := 0
  const Minute: int := 60
  const Day: int := 86400
  /** 2077-01-01 00:00 UTC, the expiry of a lifetime ("VIP") entitlement. */
  const VipUntil: Time := 3376684800

  /**
   * Seconds from 0001-01-01 to 1970-01-01. Go's `time.Time` counts seconds
   * from year 1 in an `int64`, and its calendar arithmetic wraps modulo
   * 2^64 in that count.
   */
  const UnixToInternal: int := 62135596800
  const TwoTo64: int := 0x1_0000_0000_0000_0000

  /** The two's-complement reading of `x` modulo 2^64. */
  function WrapInt64(x: int): (r: int)
    ensures MinInt64 <= r <= MaxInt64
    ensures (x - r) % TwoTo64 == 0
    ensures MinInt64 <= x <= MaxInt64 ==> r == x
  {
    (x - MinInt64) % TwoTo64 + MinInt64
  }

  /** A time whose internal seconds count fits Go's `int64`. */
  predicate Representable(t: Time)
  {
    MinInt64 <= t + UnixToInternal <= MaxInt64
  }

  /**
   * `t.AddDate(0, 0, days)` in UTC: the day count is added in Go's
   * wrapping 64-bit arithmetic, so a sum past the `int64` range comes back
   * around.
   */
  function AddDays(t: Time, days: int): (r: Time)
    ensures Representable(r)
    ensures (t + days * Day - r) % TwoTo64 == 0
    ensures Representable(t + days * Day) ==> r == t + days * Day
  {
    WrapInt64(t + UnixToInternal + days * Day) - UnixToInternal
  }

  /** 2^57 days are exactly 675 · 2^64 seconds, so adding them changes nothing. */
  lemma AddDaysFullTurn(t: Time)
    requires Representable(t)
    ensures AddDays(t, 0x200_0000_0000_0000) == t
  {
    var k := t + UnixToInternal;
    assert 0x200_0000_0000_0000 * Day == 675 * TwoTo64;
    assert (k + 675 * TwoTo64 - MinInt64) % TwoTo64 == (k - MinInt64) % TwoTo64;
  }

  /** One chat the bot is present in, with its per-chat configuration. */
  datatype Chat = Chat(
    id: int,
    chatType: string,
    chatName: string,
    questionPrompt: string,
    randomInterferencePrompt: string,
    agroLevel: int,          // percent chance of a spontaneous interjection
    agroCooldown: int,       // minutes between interjections
    deletePreviewMessages: bool,
    billedTo: Time)          // entitlement expiry

  /**
   * `slices.IndexFunc(chats, func(c) bool { return c.ID == id })`: the
   * position of the first chat with this ID, or none.
   */
  function FindChat(chats: seq<Chat>, id: int): (r: Option<nat>)
    ensures r.Some? ==> r.value < |chats| && chats[r.value].id == id
    ensures r.Some? ==> forall j :: 0 <= j < r.value ==> chats[j].id != id
    ensures r.None? <==> forall j :: 0 <= j < |chats| ==> chats[j].id != id
  {
    if |chats| == 0 then None
    else if chats[0].id == id then Some(0)
    else match FindChat(chats[1..], id)
      case None => None
      case Some(i) => Some(i + 1)
  }

  /** The first chat with this ID, or none. */
  function LookupChat(chats: seq<Chat>, id: int): (r: Option<Chat>)
    ensures r.Some? <==> exists j :: 0 <= j < |chats| && chats[j].id == id
    ensures r.Some? ==> r.value in chats && r.value.id == id
  {
    match FindChat(chats, id)
    case None => None
    case Some(i) => Some(chats[i])
  }

  /** No two chats share an ID (the store's primary key). */
  predicate UniqueIds(chats: seq<Chat>)
  {
    forall i, j :: 0 <= i < j < |chats| ==> chats[i].id != chats[j].id
  }

  /** With unique IDs, the chat a lookup finds is the only one with that ID. */
  lemma LookupUnique(chats: seq<Chat>, j: nat)
    requires UniqueIds(chats)
    requires j < |chats|
    ensures LookupChat(chats, chats[j].id) == Some(chats[j])
  {
  }
}
