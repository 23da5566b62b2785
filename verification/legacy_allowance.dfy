/**
 * The earlier revision's entitlement check: a fixed allow-list of chat IDs
 * compiled into the program.
 */
module LegacyAllowance {

  const AllowedChats: seq<int> := [
    438663,
    189049,
    89895968,
    -1720840717,
    -934228897,
    -1001720840717,
    886350649
  ]

  /** `checkAllowed(ID)`: a scan of the allow-list that stops at the first match. */
  method CheckAllowed(id: int) returns (allowed: bool)
    ensures allowed <==> id in AllowedChats
  {
    var i := 0;
    while i < |AllowedChats|
      invariant 0 <= i <= |AllowedChats|
      invariant id !in AllowedChats[..i]
    {
      if AllowedChats[i] == id {
        return true;
      }
      i := i + 1;
    }
    return false;
  }

  /** The three group IDs and the four user IDs are all on the list, and 0 is not. */
  lemma AllowListMembers()
    ensures forall id :: id in [438663, 189049, 89895968, 886350649] ==> id in AllowedChats
    ensures forall id :: id in [-1720840717, -934228897, -1001720840717] ==> id in AllowedChats
    ensures 0 !in AllowedChats
  {
  }
}
