/**
 * The new-game form: two team-name fields, valid once each holds something
 * other than whitespace; creating a game hands the trimmed names on.
 */
module CreateGameView {
  import opened Platform
  import opened Models
  import opened ViewModels

  /** Some character of `s` is not whitespace. */
  predicate HasVisibleCharacter(s: string) {
    exists i :: 0 <= i < |s| && !IsWhitespace(s[i])
  }

  /** A non-empty name that neither starts nor ends with whitespace. */
  predicate IsTrimmedName(s: string) {
    s != [] && !IsWhitespace(s[0]) && !IsWhitespace(s[|s| - 1])
  }

  /** `isFormValid`: both names are non-empty once trimmed. */
  function IsFormValid(team1Name: string, team2Name: string): (valid: bool)
    ensures valid <==> HasVisibleCharacter(team1Name) && HasVisibleCharacter(team2Name)
  {
    Trimmed(team1Name) != [] && Trimmed(team2Name) != []
  }

  /** The Create button is disabled exactly when one of the names is blank or all whitespace. */
  function CreateButtonDisabled(team1Name: string, team2Name: string): (disabled: bool)
    ensures disabled <==> AllWhitespace(team1Name) || AllWhitespace(team2Name)
  {
    !IsFormValid(team1Name, team2Name)
  }

  /**
   * `createGame()`: asks the manager for a game between the trimmed names.
   * The game id and date, and whether the store saves, are supplied by the caller.
   */
  method CreateGame(manager: GameManager, team1Name: string, team2Name: string, id: Uuid, date: Timestamp, saved: bool)
    modifies manager, manager.activeGame
    ensures old(manager.activeGame) != null ==>
      old(manager.activeGame).Record() == old(manager.activeGame.Record()).(isActive := false)
    ensures saved ==>
      && fresh(manager.activeGame)
      && manager.activeGame.Record() == GameRecord(id, Trimmed(team1Name), Trimmed(team2Name), 0, 0, true, date)
      && manager.games == [manager.activeGame] + old(manager.games)
      && manager.defaults == WithSnapshot(old(manager.defaults), manager.activeGame.Record())
    ensures !saved ==>
      && manager.activeGame == old(manager.activeGame)
      && manager.games == old(manager.games)
      && manager.defaults == old(manager.defaults)
    ensures old(manager.Valid()) ==> manager.Valid()
  {
    var team1 := Trimmed(team1Name);
    var team2 := Trimmed(team2Name);
    manager.CreateGame(team1, team2, id, date, saved);
  }

  /**
   * Submitting from the team-2 field: creates the game only when the form
   * is valid, with the whole effect of `CreateGame`; otherwise nothing
   * changes. A game so created has names that are non-empty and neither
   * start nor end with whitespace.
   */
  method SubmitTeam2Name(manager: GameManager, team1Name: string, team2Name: string, id: Uuid, date: Timestamp, saved: bool)
    modifies manager, manager.activeGame
    ensures !IsFormValid(team1Name, team2Name) ==>
      && unchanged(manager)
      && (old(manager.activeGame) != null ==> unchanged(old(manager.activeGame)))
    ensures IsFormValid(team1Name, team2Name) && old(manager.activeGame) != null ==>
      old(manager.activeGame).Record() == old(manager.activeGame.Record()).(isActive := false)
    ensures IsFormValid(team1Name, team2Name) && saved ==>
      && fresh(manager.activeGame)
      && manager.activeGame.Record() == GameRecord(id, Trimmed(team1Name), Trimmed(team2Name), 0, 0, true, date)
      && manager.games == [manager.activeGame] + old(manager.games)
      && manager.defaults == WithSnapshot(old(manager.defaults), manager.activeGame.Record())
      && IsTrimmedName(manager.activeGame.team1Name)
      && IsTrimmedName(manager.activeGame.team2Name)
    ensures IsFormValid(team1Name, team2Name) && !saved ==>
      && manager.activeGame == old(manager.activeGame)
      && manager.games == old(manager.games)
      && manager.defaults == old(manager.defaults)
    ensures old(manager.Valid()) ==> manager.Valid()
  {
    if IsFormValid(team1Name, team2Name) {
      CreateGame(manager, team1Name, team2Name, id, date, saved);
    }
  }
}
