/**
 * The shared military track. Only reading the status and resetting it are
 * part of this model's source; the rule that moves the track
 * (`updateStatus`) and the rule that scores it (`getVictoryPointsForPlayer`)
 * are called by the game controller but not shown, so the controller is
 * given them as functions when it is made.
 */
module WarControl {
  import opened Models

  /** A signed military balance, or a terminal marker favouring one side. */
  datatype WarStatus = Score(value: int) | AVictory | BVictory

  class WarController {
    var status: WarStatus
    /** The track's update rule, `updateStatus(delta)`. */
    const updateRule: (WarStatus, int) -> WarStatus
    /** The track's score for one side, `getVictoryPointsForPlayer(side)`. */
    const pointsRule: (WarStatus, Letter) -> int

    constructor(updateRule: (WarStatus, int) -> WarStatus, pointsRule: (WarStatus, Letter) -> int)
      ensures status == Score(0)
      ensures this.updateRule == updateRule && this.pointsRule == pointsRule
    {
      status := Score(0);
      this.updateRule := updateRule;
      this.pointsRule := pointsRule;
    }

    /** From any value, terminal markers included, back to 0. */
    method Reset()
      modifies this
      ensures status == Score(0)
    {
      status := Score(0);
    }

    method UpdateStatus(delta: int)
      modifies this
      ensures status == updateRule(old(status), delta)
    {
      status := updateRule(status, delta);
    }

    function VictoryPointsForPlayer(side: Letter): int
      reads this
    {
      pointsRule(status, side)
    }
  }
}
