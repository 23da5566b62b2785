/**
 * Entitlement and admin checks of the handler: a chat is served while its
 * billing expiry has not passed, and bot-wide commands need a roster member.
 */
module Allowance {
  import opened Optional
  import opened Domain

  /**
   * `checkAllowed`: the first cached chat with this ID exists and its
   * expiry is not before `now` (an expiry equal to `now` still counts).
   */
  function CheckAllowed(chats: seq<Chat>, id: int, now: Time): (r: bool)
    ensures r <==> exists i :: 0 <= i < |chats| && chats[i].id == id
                      && (forall j :: 0 <= j < i ==> chats[j].id != id)
                      && now <= chats[i].billedTo
  {
    match FindChat(chats, id)
    case None => false
    case Some(i) => !(chats[i].billedTo < now)
  }

  /** An unknown chat is never served. */
  lemma UnknownChatNotAllowed(chats: seq<Chat>, id: int, now: Time)
    requires forall j :: 0 <= j < |chats| ==> chats[j].id != id
    ensures !CheckAllowed(chats, id, now)
  {
  }

  /** For a known chat the answer is exactly "expiry not yet passed", judged on the first record. */
  lemma AllowedIffNotExpired(chats: seq<Chat>, id: int, now: Time)
    requires LookupChat(chats, id).Some?
    ensures CheckAllowed(chats, id, now) <==> now <= LookupChat(chats, id).value.billedTo
  {
  }

  /** `isAdmin`: a linear scan of the roster. */
  function IsAdmin(roster: seq<int>, id: int): (r: bool)
    ensures r <==> id in roster
  {
    if |roster| == 0 then false
    else roster[0] == id || IsAdmin(roster[1..], id)
  }

  /** The answer depends on the roster only as a set: order and duplicates do not matter. */
  lemma IsAdminIgnoresOrder(r1: seq<int>, r2: seq<int>, id: int)
    requires forall x :: x in r1 <==> x in r2
    ensures IsAdmin(r1, id) == IsAdmin(r2, id)
  {
  }
}
