/**
 * `isItTime`: whether the bot spontaneously interjects in a chat. A draw
 * `n` from [0, 100) fires when `n > 100 - AgroLevel` and more than
 * `AgroCooldown` minutes have passed since the chat's last interjection.
 * The draw and the clock are parameters.
 */
module Scheduler {
  import opened Optional
  import opened Domain

  /** The outcome of one call: whether to interject, and the new cooldown map. */
  datatype Decision = Decision(fire: bool, chatCache: map<int, Time>)

  /** The last interjection time `isItTime` compares against: the epoch for a chat never seen. */
  function LastRand(chatCache: map<int, Time>, id: int): Time
  {
    if id in chatCache then chatCache[id] else Epoch
  }

  /** The probability test of `isItTime`: the draw strictly exceeds `100 - AgroLevel`. */
  predicate PassesDraw(n: int, agroLevel: int)
  {
    n > 100 - agroLevel
  }

  /** The draws in [0, 100) that pass the probability test at this agro level. */
  function FiringDraws(agroLevel: int): set<int>
  {
    set n | 0 <= n < 100 && PassesDraw(n, agroLevel)
  }

  /** A chat the scheduler may interject in: cached and not private. */
  predicate Eligible(chats: seq<Chat>, id: int)
  {
    LookupChat(chats, id).Some? && LookupChat(chats, id).value.chatType != ChatTypePrivate
  }

  function IsItTime(chats: seq<Chat>, chatCache: map<int, Time>, id: int, n: int, now: Time): (r: Decision)
    // unknown and private chats: no interjection, map untouched
    ensures !Eligible(chats, id) ==> r == Decision(false, chatCache)
    // the firing condition, with strict inequalities on both the draw and the elapsed time
    ensures r.fire <==> Eligible(chats, id)
                        && n > 100 - LookupChat(chats, id).value.agroLevel
                        && now - LastRand(chatCache, id) > LookupChat(chats, id).value.agroCooldown * Minute
    ensures 0 <= n < 100 && Eligible(chats, id) ==>
              (r.fire <==> n in FiringDraws(LookupChat(chats, id).value.agroLevel)
                           && now - LastRand(chatCache, id) > LookupChat(chats, id).value.agroCooldown * Minute)
    // a fire stamps the chat with `now`
    ensures r.fire ==> r.chatCache == chatCache[id := now]
    // no fire: an existing stamp is kept and a first-seen chat gets the epoch
    ensures Eligible(chats, id) && !r.fire ==> r.chatCache == chatCache[id := LastRand(chatCache, id)]
    // other chats' stamps are never touched
    ensures forall k :: k != id ==> (k in r.chatCache <==> k in chatCache)
    ensures forall k :: k != id && k in chatCache ==> r.chatCache[k] == chatCache[k]
  {
    match LookupChat(chats, id)
    case None => Decision(false, chatCache)
    case Some(chat) =>
      if chat.chatType == ChatTypePrivate then
        Decision(false, chatCache)
      else
        var seeded := if id in chatCache then chatCache else chatCache[id := Epoch];
        if n > 100 - chat.agroLevel && now - seeded[id] > chat.agroCooldown * Minute then
          Decision(true, seeded[id := now])
        else
          assert seeded == chatCache[id := LastRand(chatCache, id)];
          Decision(false, seeded)
  }

  /** The integers in [lo, hi). */
  function Range(lo: int, hi: int): (r: set<int>)
    ensures forall n :: n in r <==> lo <= n < hi
    ensures |r| == if lo <= hi then hi - lo else 0
    decreases hi - lo
  {
    if lo >= hi then {} else {lo} + Range(lo + 1, hi)
  }

  /**
   * Exactly `AgroLevel - 1` of the 100 draws can fire (none for levels 0
   * and 1, all but `n = 0` for level 100).
   */
  lemma FiringDrawCount(agroLevel: int)
    ensures |FiringDraws(agroLevel)| == if agroLevel <= 1 then 0 else if agroLevel > 100 then 100 else agroLevel - 1
  {
    var lo := if agroLevel <= 1 then 100 else if agroLevel > 100 then 0 else 101 - agroLevel;
    assert FiringDraws(agroLevel) == Range(lo, 100);
  }

  /** Levels 0 and 1 never fire; level 100 fires on every draw but 0. */
  lemma AgroExtremes(n: int)
    requires 0 <= n < 100
    ensures n !in FiringDraws(0) && n !in FiringDraws(1)
    ensures n in FiringDraws(100) <==> n != 0
  {
  }

  /**
   * After an interjection at `t`, no call at a `t2` within the cooldown
   * fires, whatever the draw.
   */
  lemma NoRefireWithinCooldown(chats: seq<Chat>, chatCache: map<int, Time>, id: int, n: int, t: Time, n2: int, t2: Time)
    requires IsItTime(chats, chatCache, id, n, t).fire
    requires t2 - t <= LookupChat(chats, id).value.agroCooldown * Minute
    ensures !IsItTime(chats, IsItTime(chats, chatCache, id, n, t).chatCache, id, n2, t2).fire
  {
    var after := IsItTime(chats, chatCache, id, n, t).chatCache;
    assert LastRand(after, id) == t;
  }

  /**
   * The first call for a chat compares against the epoch, so it can fire as
   * soon as the draw passes.
   */
  lemma FirstCallCanFire(chats: seq<Chat>, chatCache: map<int, Time>, id: int, n: int, now: Time)
    requires id !in chatCache
    requires Eligible(chats, id)
    requires 0 <= n < 100 && n in FiringDraws(LookupChat(chats, id).value.agroLevel)
    requires now - Epoch > LookupChat(chats, id).value.agroCooldown * Minute
    ensures IsItTime(chats, chatCache, id, n, now).fire
  {
  }
}
