/**
 * A rock-paper-scissors hand and its comparison rule, with the wrong pair
 * the rule is written with reproduced as it is.
 */
module Model {
  import opened Wrappers
  import opened Builtins

  /** Hand names, indexed by hand type: 0 rock, 1 paper, 2 scissor. */
  const HAND_NAME: seq<string> := ["rock", "paper", "scissor"]

  const ROCK := 0
  const PAPER := 1
  const SCISSOR := 2

  /** A played hand. Its type is whatever integer it was built from; nothing checks the range. */
  datatype Hand = Hand(handType: int)

  /**
   * `str(h)`: the name at index `handType` of `HAND_NAME`. Python's list
   * indexing also accepts -3..-1 (counting from the end); every other type
   * is an IndexError.
   */
  function Name(h: Hand): (r: Result<string, Exception>)
    ensures r.Success? <==> -3 <= h.handType < 3
    ensures h.handType == ROCK ==> r == Success("rock")
    ensures h.handType == PAPER ==> r == Success("paper")
    ensures h.handType == SCISSOR ==> r == Success("scissor")
    ensures -3 <= h.handType < 0 ==> r == Success(HAND_NAME[h.handType + 3])
  {
    Subscript(HAND_NAME, h.handType)
  }

  /**
   * `a < b`, read "a loses to b": the pair of types is one of (0, 1),
   * (1, 2), (2, 3). The last pair should be (2, 0); as written, it makes a
   * hand of type 2 lose only to a hand of type 3.
   */
  predicate Less(a: Hand, b: Hand)
    ensures Less(a, b) <==> 0 <= a.handType <= 2 && b.handType == a.handType + 1
  {
    (a.handType, b.handType) in [(0, 1), (1, 2), (2, 3)]
  }

  /** `a == b`: equal types. A hand has nothing but its type, so this is equality of hands. */
  predicate Equal(a: Hand, b: Hand)
    ensures Equal(a, b) <==> a == b
  {
    a.handType == b.handType
  }

  /** No hand loses to itself. */
  lemma LessIrreflexive(a: Hand)
    ensures !Less(a, a)
  {
  }

  /** Two hands never lose to each other. */
  lemma LessAsymmetric(a: Hand, b: Hand)
    ensures !(Less(a, b) && Less(b, a))
  {
  }

  /** Equality of hands is reflexive and symmetric. */
  lemma EqualReflexiveSymmetric(a: Hand, b: Hand)
    ensures Equal(a, a)
    ensures Equal(a, b) == Equal(b, a)
  {
  }

  /**
   * Among the three real hands, rock loses to paper and paper to scissor,
   * and those are the only losses: scissor and rock do not compare either way.
   */
  lemma LessOnRealHands(a: Hand, b: Hand)
    requires 0 <= a.handType <= 2 && 0 <= b.handType <= 2
    ensures Less(a, b) <==> (a.handType, b.handType) in {(ROCK, PAPER), (PAPER, SCISSOR)}
    ensures !Less(Hand(SCISSOR), Hand(ROCK)) && !Less(Hand(ROCK), Hand(SCISSOR))
  {
  }
}
