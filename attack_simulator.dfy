/** The demo's attack switches (AttackSimulator.kt). In the application they are one
    process-wide object; here that object is one `AttackSimulator` instance that the
    view model owns a reference to and hands to the trust-score engine. */
module AttackSimulation {

  class AttackSimulator {
    /** When set, the typing factor reports a bot regardless of the recorded pattern. */
    var isSuperHumanTypingSimulated: bool
    /** When set, the location factor reports impossible travel. */
    var isLongDistanceJumpSimulated: bool

    /** Both simulations start switched off. */
    constructor ()
      ensures !isSuperHumanTypingSimulated && !isLongDistanceJumpSimulated
    {
      isSuperHumanTypingSimulated := false;
      isLongDistanceJumpSimulated := false;
    }

    /** Switches the bot-typing simulation on; the travel flag is left alone, and a
        second call changes nothing. */
    method SimulateSuperHumanTyping()
      modifies this
      ensures isSuperHumanTypingSimulated
      ensures isLongDistanceJumpSimulated == old(isLongDistanceJumpSimulated)
      ensures old(isSuperHumanTypingSimulated) ==> unchanged(this)
    {
      isSuperHumanTypingSimulated := true;
    }

    /** Switches the impossible-travel simulation on; the typing flag is left alone, and a
        second call changes nothing. */
    method SimulateLongDistanceJump()
      modifies this
      ensures isLongDistanceJumpSimulated
      ensures isSuperHumanTypingSimulated == old(isSuperHumanTypingSimulated)
      ensures old(isLongDistanceJumpSimulated) ==> unchanged(this)
    {
      isLongDistanceJumpSimulated := true;
    }

    /** Clears both simulations; on an already cleared simulator it changes nothing. */
    method ResetSimulation()
      modifies this
      ensures !isSuperHumanTypingSimulated && !isLongDistanceJumpSimulated
      ensures !old(isSuperHumanTypingSimulated) && !old(isLongDistanceJumpSimulated) ==> unchanged(this)
    {
      isSuperHumanTypingSimulated := false;
      isLongDistanceJumpSimulated := false;
    }
  }
}
