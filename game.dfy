/**
 * One round of the game and the opponent menu, with the console left out:
 * the numbers and text the player types, and the hands the opponent
 * providers return, are parameters.
 */
module Game {
  import opened Wrappers
  import opened Builtins
  import opened Model

  /** What the round reports to the player. */
  datatype Outcome = Win | Draw | Lose

  /** The opponent the menu selects. */
  datatype Opponent = RandomOpponent | SmartOpponent

  /**
   * The hand built from the number the player enters. The menu numbers
   * hands from 1, but the number is used as the type without subtracting one.
   */
  function UserHand(userPlay: int): (h: Hand)
    ensures h.handType == userPlay
  {
    Hand(userPlay)
  }

  /**
   * The round's verdict: a win when the opponent's hand loses to the
   * player's (`user > opponent` falls back to `opponent < user`, since a
   * hand only defines `<`), else a draw on equal hands, else a loss.
   */
  function Decide(user: Hand, opponent: Hand): (r: Outcome)
    ensures r == Win <==> 0 <= opponent.handType <= 2 && user.handType == opponent.handType + 1
    ensures r == Draw <==> user.handType == opponent.handType
    ensures r == Lose <==> !Less(opponent, user) && user != opponent
  {
    if Less(opponent, user) then Win
    else if Equal(user, opponent) then Draw
    else Lose
  }

  /**
   * One round: the player's number becomes a hand, both hands are named
   * for the announcement (an IndexError for a type outside -3..2 ends the
   * round there), then the verdict is decided.
   */
  function PlayGame(userPlay: int, opponent: Hand): (r: Result<Outcome, Exception>)
    ensures r.Failure? <==> !(-3 <= userPlay < 3) || !(-3 <= opponent.handType < 3)
    ensures r.Success? ==> r.value == Decide(UserHand(userPlay), opponent)
  {
    var user := UserHand(userPlay);
    match (Name(user), Name(opponent))
    case (Failure(e), _) => Failure(e)
    case (_, Failure(e)) => Failure(e)
    case _ => Success(Decide(user, opponent))
  }

  /** The menu: "1" (after stripping whitespace) plays the random opponent, "2" the smart one, anything else plays nothing. */
  function SelectOpponent(userSelect: string): (r: Option<Opponent>)
    ensures r == Some(RandomOpponent) <==> Strip(userSelect) == "1"
    ensures r == Some(SmartOpponent) <==> Strip(userSelect) == "2"
    ensures r == None <==> Strip(userSelect) != "1" && Strip(userSelect) != "2"
  {
    var choice := Strip(userSelect);
    if choice == "1" then Some(RandomOpponent)
    else if choice == "2" then Some(SmartOpponent)
    else None
  }

  /**
   * A whole session: the menu choice, then one round against the hand of
   * the chosen provider; no round at all for an unknown choice.
   */
  function Session(userSelect: string, userPlay: int, randomHand: Hand, smartHand: Hand)
    : (r: Option<Result<Outcome, Exception>>)
    ensures r.None? <==> SelectOpponent(userSelect).None?
    ensures SelectOpponent(userSelect) == Some(RandomOpponent) ==> r == Some(PlayGame(userPlay, randomHand))
    ensures SelectOpponent(userSelect) == Some(SmartOpponent) ==> r == Some(PlayGame(userPlay, smartHand))
  {
    match SelectOpponent(userSelect)
    case None => None
    case Some(RandomOpponent) => Some(PlayGame(userPlay, randomHand))
    case Some(SmartOpponent) => Some(PlayGame(userPlay, smartHand))
  }

  /**
   * Swapping the players turns a win into a loss and keeps a draw a draw.
   * The converse fails: rock against scissor is a loss from both sides.
   */
  lemma SwappedRound(user: Hand, opponent: Hand)
    ensures Decide(user, opponent) == Win ==> Decide(opponent, user) == Lose
    ensures Decide(user, opponent) == Draw <==> Decide(opponent, user) == Draw
  {
  }

  /** Entering 1 plays paper, 2 scissor, and 3 a hand of type 3 (no rock can be entered from the menu's numbers). */
  lemma EnteredNumberIsType()
    ensures Name(UserHand(1)) == Success("paper")
    ensures Name(UserHand(2)) == Success("scissor")
    ensures UserHand(3).handType == 3 && Name(UserHand(3)).Failure?
  {
  }

  /** Entering 3 raises IndexError while announcing the hands, whatever the opponent plays. */
  lemma EnteringThreeFails(opponent: Hand)
    ensures PlayGame(3, opponent) == Failure(IndexError)
  {
  }

  /** Rock against scissor is a loss for the player, and so is scissor against rock. */
  lemma RockScissorBothLose()
    ensures Decide(Hand(ROCK), Hand(SCISSOR)) == Lose
    ensures Decide(Hand(SCISSOR), Hand(ROCK)) == Lose
  {
  }

  /** The menu ignores surrounding whitespace: a padded "1" or "2" picks the same opponent. */
  lemma MenuIgnoresPadding(w1: string, w2: string)
    requires AllSpace(w1) && AllSpace(w2)
    ensures SelectOpponent(w1 + "1" + w2) == Some(RandomOpponent)
    ensures SelectOpponent(w1 + "2" + w2) == Some(SmartOpponent)
  {
    StripPadded(w1, "1", w2);
    StripPadded(w1, "2", w2);
  }
}
