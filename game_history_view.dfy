/**
 * The history screen: the ended games, in list order, each row showing the
 * winner (or a tie) and highlighting the higher score.
 */
module GameHistoryView {
  import opened Models

  /** `completedGames`: the games whose active flag is cleared, in the order of `games`. */
  function CompletedGames(games: seq<Game>): (completed: seq<Game>)
    reads games
    ensures |completed| <= |games|
    ensures forall i :: 0 <= i < |completed| ==> completed[i] in games && !completed[i].isActive
    ensures forall i :: 0 <= i < |games| && !games[i].isActive ==> games[i] in completed
  {
    if games == [] then []
    else (if games[0].isActive then [] else [games[0]]) + CompletedGames(games[1..])
  }

  /** Filtering a concatenation filters each part in turn, so the relative order is kept. */
  lemma {:induction false} CompletedGamesAppend(a: seq<Game>, b: seq<Game>)
    ensures CompletedGames(a + b) == CompletedGames(a) + CompletedGames(b)
  {
    if a == [] {
      assert a + b == b;
    } else {
      assert (a + b)[1..] == a[1..] + b;
      CompletedGamesAppend(a[1..], b);
    }
  }

  /** The "No Game History" placeholder shows exactly when every game is still active. */
  function ShowsNoHistory(games: seq<Game>): (empty: bool)
    reads games
    ensures empty <==> forall i :: 0 <= i < |games| ==> games[i].isActive
  {
    var completed := CompletedGames(games);
    assert completed != [] ==> exists j :: 0 <= j < |games| && games[j] == completed[0];
    completed == []
  }

  /** The badge under a finished game. */
  datatype Badge = Won(winner: string) | TieGame

  /** What a history row decides: which score is highlighted, and the badge. */
  datatype RowView = RowView(team1Highlighted: bool, team2Highlighted: bool, badge: Badge)

  /** `GameHistoryRow`: the highlight colours and the winner/tie badge of one game. */
  function HistoryRow(game: Game): (row: RowView)
    reads game
    ensures !(row.team1Highlighted && row.team2Highlighted)
    ensures row.badge == TieGame <==> game.team1Score == game.team2Score
    ensures row.badge == TieGame <==> !row.team1Highlighted && !row.team2Highlighted
    ensures row.team1Highlighted <==> game.team1Score > game.team2Score
    ensures row.team2Highlighted <==> game.team2Score > game.team1Score
    ensures game.team1Score > game.team2Score ==> row.badge == Won(game.team1Name)
    ensures game.team2Score > game.team1Score ==> row.badge == Won(game.team2Name)
  {
    var badge :=
      if game.team1Score != game.team2Score then
        Won(if game.team1Score > game.team2Score then game.team1Name else game.team2Name)
      else
        TieGame;
    RowView(game.team1Score > game.team2Score, game.team2Score > game.team1Score, badge)
  }
}
