/**
 * The behaviour decision element that turns the game controller's state
 * number into the answer the behaviour tree branches on.
 */
module GameStateDecider {

  import opened Common

  const NotAllowedToMove := "NOT_ALLOWED_TO_MOVE"

  /** The table the decision element builds in its constructor. */
  const GameStates: map<int, string> :=
    map[0 := "INITIAL", 1 := "READY", 2 := "SET", 3 := "PLAYING", 4 := "FINISHED"]

  /**
   * The answer for one evaluation. A robot that may not move answers
   * NOT_ALLOWED_TO_MOVE whatever the state; otherwise the states 0..4 are
   * named and any other number falls off the end of the if/elif chain,
   * which in the source returns no answer at all (None).
   */
  function Perform(allowedToMove: bool, gameState: int): (r: Option<string>)
    ensures !allowedToMove ==> r == Some(NotAllowedToMove)
    ensures allowedToMove ==> (r.Some? <==> 0 <= gameState <= 4)
    ensures allowedToMove && r.Some? ==> r.value != NotAllowedToMove
  {
    if !allowedToMove then Some(NotAllowedToMove)
    else if gameState == 0 then Some("INITIAL")
    else if gameState == 1 then Some("READY")
    else if gameState == 2 then Some("SET")
    else if gameState == 3 then Some("PLAYING")
    else if gameState == 4 then Some("FINISHED")
    else None
  }

  /**
   * The if/elif chain agrees with the constructor's table: a robot that may
   * move gets exactly the table's entry for its state, and no answer for a
   * state the table does not hold.
   */
  lemma PerformAgreesWithTable(gameState: int)
    ensures Perform(true, gameState) ==
            if gameState in GameStates then Some(GameStates[gameState]) else None
  {
  }

  /** Two different states in 0..4 never give the same answer. */
  lemma PerformInjective(a: int, b: int)
    requires 0 <= a <= 4 && 0 <= b <= 4
    requires Perform(true, a) == Perform(true, b)
    ensures a == b
  {
  }

  /** The game state can change at any time, so the decision is always re-evaluated. */
  function GetReevaluate(): (r: bool)
    ensures r
  {
    true
  }
}
