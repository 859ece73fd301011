/**
 * Whose turn it is. Every change of turn fires the hook the controller was
 * built with; the game controller's hook arms the one-shot card-click
 * listener, so the model counts the calls.
 */
module TurnControl {
  import opened Models

  function LetterString(l: Letter): string {
    match l
    case A => "A"
    case B => "B"
  }

  function Toggled(l: Letter): (r: Letter)
    ensures r != l
  {
    if l == A then B else A
  }

  class TurnController {
    var turn: Letter
    const playerAUid: PlayerUid
    const playerBUid: PlayerUid
    /** How many times the turn-set hook has fired. */
    var hookCalls: nat

    constructor(playerAUid: PlayerUid, playerBUid: PlayerUid)
      ensures turn == A && hookCalls == 0
      ensures this.playerAUid == playerAUid && this.playerBUid == playerBUid
    {
      turn := A;
      this.playerAUid := playerAUid;
      this.playerBUid := playerBUid;
      hookCalls := 0;
    }

    method Reset()
      modifies this
      ensures turn == A && hookCalls == old(hookCalls) + 1
    {
      turn := A;
      hookCalls := hookCalls + 1;
    }

    /** Sets the turn from a player uid or a letter; anything else is ignored. */
    method Set(player: string)
      modifies this
      ensures player == playerAUid || player == "A" ==>
        turn == A && hookCalls == old(hookCalls) + 1
      ensures !(player == playerAUid || player == "A") && (player == playerBUid || player == "B") ==>
        turn == B && hookCalls == old(hookCalls) + 1
      ensures !(player == playerAUid || player == "A" || player == playerBUid || player == "B") ==>
        turn == old(turn) && hookCalls == old(hookCalls)
    {
      if player == playerAUid || player == "A" {
        turn := A;
        hookCalls := hookCalls + 1;
      } else if player == playerBUid || player == "B" {
        turn := B;
        hookCalls := hookCalls + 1;
      }
    }

    method Toggle()
      modifies this
      ensures turn == Toggled(old(turn)) && hookCalls == old(hookCalls) + 1
    {
      turn := if turn == A then B else A;
      hookCalls := hookCalls + 1;
    }

    function AsLetter(): Letter
      reads this
    {
      turn
    }

    function AsUid(): (uid: PlayerUid)
      reads this
      ensures playerAUid != playerBUid ==> (uid == playerAUid <==> turn == A)
      ensures uid == playerAUid || uid == playerBUid
    {
      if turn == A then playerAUid else playerBUid
    }

    function IsTurn(player: string): (yes: bool)
      reads this
      ensures turn == A ==> (yes <==> player == playerAUid || player == "A")
      ensures turn == B ==> (yes <==> player == playerBUid || player == "B")
    {
      AsUid() == player || LetterString(turn) == player
    }

    /** A check that reads the turn each time it is applied, not when it is made. */
    function ConfirmTurn(): (check: PlayerUid ~> bool)
      reads this
      ensures forall u :: check.requires(u) && check.reads(u) == {this}
    {
      (u: PlayerUid) reads this => u == AsUid()
    }
  }

  /** Two toggles give back the turn one started with. */
  method ToggleTwiceRestores(t: TurnController)
    modifies t
    ensures t.turn == old(t.turn) && t.hookCalls == old(t.hookCalls) + 2
  {
    t.Toggle();
    t.Toggle();
  }

  /** A check made before a toggle judges by the turn after it. */
  method ConfirmTurnTracksToggle(t: TurnController, u: PlayerUid) returns (before: bool, after: bool)
    modifies t
    ensures before == (u == old(t.AsUid()))
    ensures after == (u == t.AsUid()) && t.turn == Toggled(old(t.turn))
  {
    var check := t.ConfirmTurn();
    before := check(u);
    t.Toggle();
    after := check(u);
  }
}
