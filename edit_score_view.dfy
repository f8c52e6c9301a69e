/**
 * The score editor sheet: a counter that starts at the team's current
 * score, minus and plus buttons, a manual entry field, Save and Cancel.
 */
module EditScoreView {
  import opened Models
  import opened ViewModels

  class ScoreEditor {
    const teamName: string
    const currentScore: int
    const teamNumber: int
    /** The `@State` value being edited. */
    var newScore: int
    /** Whether the sheet has been dismissed. */
    var dismissed: bool

    constructor (teamName: string, currentScore: int, teamNumber: int)
      ensures this.teamName == teamName && this.currentScore == currentScore && this.teamNumber == teamNumber
      ensures newScore == currentScore && !dismissed
    {
      this.teamName := teamName;
      this.currentScore := currentScore;
      this.teamNumber := teamNumber;
      newScore := currentScore;
      dismissed := false;
    }

    /** The minus button is greyed out and disabled. */
    predicate MinusDisabled()
      reads this
    {
      newScore <= 0
    }

    /** The minus button: one less, unless that would go below zero. */
    method Minus()
      modifies this`newScore
      ensures old(MinusDisabled()) ==> newScore == old(newScore)
      ensures !old(MinusDisabled()) ==> newScore == old(newScore) - 1
      ensures newScore == Decremented(old(newScore))
    {
      if newScore > 0 {
        newScore := newScore - 1;
      }
    }

    /** The plus button: one more. */
    method Plus()
      modifies this`newScore
      ensures newScore == old(newScore) + 1
    {
      newScore := newScore + 1;
    }

    /** The manual entry field: any number typed in, negative ones included. */
    method EnterManually(value: int)
      modifies this`newScore
      ensures newScore == value
    {
      newScore := value;
    }

    /** Save: stores `max(0, newScore)` for this team through the manager, then dismisses. */
    method Save(manager: GameManager, saved: bool)
      modifies this`dismissed, manager, manager.activeGame
      ensures dismissed && newScore == old(newScore)
      ensures manager.activeGame == old(manager.activeGame) && manager.games == old(manager.games)
      ensures manager.activeGame != null ==>
        manager.activeGame.Record() == WithScore(old(manager.activeGame.Record()), teamNumber, ClampedScore(newScore))
      ensures manager.defaults ==
        if manager.activeGame != null && saved
        then WithSnapshot(old(manager.defaults), manager.activeGame.Record())
        else old(manager.defaults)
      ensures old(manager.Valid()) ==> manager.Valid()
    {
      manager.UpdateScore(teamNumber, ClampedScore(newScore), saved);
      dismissed := true;
    }

    /** Cancel: dismisses, leaving the manager and its games untouched. */
    method Cancel()
      modifies this`dismissed
      ensures dismissed && newScore == old(newScore)
    {
      dismissed := true;
    }
  }

  /** Pressing minus any number of times from a non-negative score never goes below zero. */
  lemma {:induction false} MinusNeverNegative(score: int, presses: nat)
    requires score >= 0
    ensures MinusPresses(score, presses) >= 0
    ensures MinusPresses(score, presses) == if presses <= score then score - presses else 0
  {
    if presses > 0 {
      MinusNeverNegative(score, presses - 1);
    }
  }

  /** The counter after `presses` presses of minus. */
  function MinusPresses(score: int, presses: nat): int {
    if presses == 0 then score else Decremented(MinusPresses(score, presses - 1))
  }
}
