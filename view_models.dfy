/**
 * The game manager: the list of games (newest first), the one active game,
 * and the snapshot of the active game it leaves in the shared defaults.
 * Saving to the persistent store is an outcome handed in by the caller.
 */
module ViewModels {
  import opened Platform
  import opened SharedDefaults
  import opened Models

  /** The index of the first active game, `None` when no game is active. */
  function FirstActiveIndex(games: seq<Game>): (r: Option<nat>)
    reads games
    ensures r.Some? ==> r.value < |games| && games[r.value].isActive
    ensures forall i :: 0 <= i < |games| && games[i].isActive ==> r.Some? && r.value <= i
  {
    if games == [] then None
    else if games[0].isActive then Some(0)
    else match FirstActiveIndex(games[1..])
      case None => None
      case Some(k) => Some(k + 1)
  }

  /** `games.first(where: { $0.isActive })` */
  function FirstActive(games: seq<Game>): Game?
    reads games
  {
    match FirstActiveIndex(games)
    case None => null
    case Some(k) => games[k]
  }

  predicate Distinct(games: seq<Game>) {
    forall i, j :: 0 <= i < j < |games| ==> games[i] != games[j]
  }

  predicate AtMostOneActive(games: seq<Game>)
    reads games
  {
    forall i, j :: 0 <= i < |games| && 0 <= j < |games| && games[i].isActive && games[j].isActive ==> i == j
  }

  predicate ScoresNonNegative(games: seq<Game>)
    reads games
  {
    forall i :: 0 <= i < |games| ==> games[i].team1Score >= 0 && games[i].team2Score >= 0
  }

  /** What the persistent store is expected to hand back: each game once, at most one active, no negative score. */
  predicate StoreConsistent(games: seq<Game>)
    reads games
  {
    Distinct(games) && AtMostOneActive(games) && ScoresNonNegative(games)
  }

  /** `defaults` with the active-game slot holding the dictionary form of `g`. */
  function WithSnapshot(defaults: Defaults, g: GameRecord): Defaults {
    defaults[ActiveGameKey := VDict(Encode(g))]
  }

  class GameManager {
    var activeGame: Game?
    var games: seq<Game>
    /** The shared App Group defaults, which the widget reads. */
    var defaults: Defaults

    /**
     * The manager's invariant: the active game is listed, each game is listed
     * once, no listed game other than the active one is active, and no score
     * is negative.
     */
    ghost predicate Valid()
      reads this, games
    {
      && (activeGame != null ==> activeGame in games)
      && Distinct(games)
      && (forall i :: 0 <= i < |games| && games[i].isActive ==> games[i] == activeGame)
      && ScoresNonNegative(games)
    }

    /**
     * `init()`: starts empty and loads the games; `fetched` is what the
     * store's fetch returned, `None` when it threw.
     */
    constructor (fetched: Option<seq<Game>>, defaults: Defaults)
      ensures fetched.None? ==> games == [] && activeGame == null && this.defaults == defaults
      ensures fetched.Some? ==> games == fetched.value && activeGame == FirstActive(games)
      ensures fetched.Some? ==>
        this.defaults == (if activeGame == null then defaults else WithSnapshot(defaults, activeGame.Record()))
      ensures fetched.None? || StoreConsistent(fetched.value) ==> Valid()
    {
      activeGame := null;
      games := [];
      this.defaults := defaults;
      new;
      LoadGames(fetched);
    }

    /**
     * `loadGames()`: replaces the list with what the store returned (newest
     * first), makes the first active game the active one and shares it.
     * When the fetch threw, nothing changes.
     */
    method LoadGames(fetched: Option<seq<Game>>)
      modifies this
      ensures fetched.None? ==> games == old(games) && activeGame == old(activeGame) && defaults == old(defaults)
      ensures fetched.Some? ==> games == fetched.value && activeGame == FirstActive(games)
      ensures fetched.Some? ==>
        defaults == (if activeGame == null then old(defaults) else WithSnapshot(old(defaults), activeGame.Record()))
      ensures fetched.Some? && StoreConsistent(fetched.value) ==> Valid()
      ensures fetched.None? && old(Valid()) ==> Valid()
    {
      if fetched.Some? {
        games := fetched.value;
        activeGame := FirstActive(games);
        if activeGame != null {
          ShareActiveGameWithWidget(activeGame);
        }
      }
    }

    /**
     * `createGame`: ends the current game, then, if the store saves, puts a
     * new active game at the front of the list and shares it. If the save
     * fails, the list, the active-game reference and the defaults are as
     * before, though the previous game stays ended.
     */
    method CreateGame(team1: string, team2: string, id: Uuid, date: Timestamp, saved: bool)
      modifies this, activeGame
      ensures old(activeGame) != null ==> old(activeGame).Record() == old(activeGame.Record()).(isActive := false)
      ensures saved ==> fresh(activeGame) && activeGame.Record() == GameRecord(id, team1, team2, 0, 0, true, date)
      ensures saved ==> games == [activeGame] + old(games)
      ensures saved ==> defaults == WithSnapshot(old(defaults), activeGame.Record())
      ensures !saved ==> activeGame == old(activeGame) && games == old(games) && defaults == old(defaults)
      ensures old(Valid()) ==> Valid()
    {
      if activeGame != null {
        activeGame.EndGame();
      }
      var newGame := new Game(team1, team2, id, date);
      if saved {
        activeGame := newGame;
        games := [newGame] + games;
        ShareActiveGameWithWidget(newGame);
      }
    }

    /** `incrementScore(for:)`: one more for team 1 when `team == 1`, for team 2 otherwise. */
    method IncrementScore(team: int, saved: bool)
      modifies this, activeGame
      ensures activeGame == old(activeGame) && games == old(games)
      ensures activeGame != null ==>
        activeGame.Record() == WithScore(old(activeGame.Record()), team, ScoreOf(old(activeGame.Record()), team) + 1)
      ensures defaults ==
        if activeGame != null && saved then WithSnapshot(old(defaults), activeGame.Record()) else old(defaults)
      ensures old(Valid()) ==> Valid()
    {
      var game := activeGame;
      if game == null {
        return;
      }
      if team == 1 {
        game.IncrementTeam1Score();
      } else {
        game.IncrementTeam2Score();
      }
      SaveGame(saved);
    }

    /** `decrementScore(for:)`: one less for the chosen team, never below zero. */
    method DecrementScore(team: int, saved: bool)
      modifies this, activeGame
      ensures activeGame == old(activeGame) && games == old(games)
      ensures activeGame != null ==>
        activeGame.Record() == WithScore(old(activeGame.Record()), team, Decremented(ScoreOf(old(activeGame.Record()), team)))
      ensures defaults ==
        if activeGame != null && saved then WithSnapshot(old(defaults), activeGame.Record()) else old(defaults)
      ensures old(Valid()) ==> Valid()
    {
      var game := activeGame;
      if game == null {
        return;
      }
      if team == 1 {
        game.DecrementTeam1Score();
      } else {
        game.DecrementTeam2Score();
      }
      SaveGame(saved);
    }

    /** `updateScore(for:newScore:)`: the chosen team's score becomes `max(0, newScore)`. */
    method UpdateScore(team: int, newScore: int, saved: bool)
      modifies this, activeGame
      ensures activeGame == old(activeGame) && games == old(games)
      ensures activeGame != null ==>
        activeGame.Record() == WithScore(old(activeGame.Record()), team, ClampedScore(newScore))
      ensures defaults ==
        if activeGame != null && saved then WithSnapshot(old(defaults), activeGame.Record()) else old(defaults)
      ensures old(Valid()) ==> Valid()
    {
      var game := activeGame;
      if game == null {
        return;
      }
      if team == 1 {
        game.team1Score := ClampedScore(newScore);
      } else {
        game.team2Score := ClampedScore(newScore);
      }
      SaveGame(saved);
    }

    /**
     * `endCurrentGame()`: ends the active game, which stays in the list, and
     * clears both the active game and the widget's snapshot, whether or not
     * the store saves.
     */
    method EndCurrentGame(saved: bool)
      modifies this, activeGame
      ensures games == old(games)
      ensures old(activeGame) == null ==> activeGame == null && defaults == old(defaults)
      ensures old(activeGame) != null ==>
        && old(activeGame).Record() == old(activeGame.Record()).(isActive := false)
        && activeGame == null
        && defaults == old(defaults) - {ActiveGameKey}
      ensures old(Valid()) ==> Valid()
    {
      var game := activeGame;
      if game == null {
        return;
      }
      game.EndGame();
      SaveGame(saved);
      activeGame := null;
      ClearWidgetData();
    }

    /** `saveGame()`: after a successful save, re-shares the active game. */
    method SaveGame(saved: bool)
      modifies this`defaults
      ensures defaults ==
        if saved && activeGame != null then WithSnapshot(old(defaults), activeGame.Record()) else old(defaults)
    {
      if saved && activeGame != null {
        ShareActiveGameWithWidget(activeGame);
      }
    }

    /** `shareActiveGameWithWidget`: stores the game's dictionary form under "activeGame". */
    method ShareActiveGameWithWidget(game: Game)
      modifies this`defaults
      ensures defaults == WithSnapshot(old(defaults), game.Record())
      ensures ActiveGameKey in defaults && Decode(defaults[ActiveGameKey].dict) == Some(game.Record())
    {
      defaults := defaults[ActiveGameKey := VDict(game.ToDictionary())];
      DecodeEncode(game.Record());
    }

    /** `clearWidgetData()`: removes the "activeGame" entry. */
    method ClearWidgetData()
      modifies this`defaults
      ensures defaults == old(defaults) - {ActiveGameKey}
    {
      defaults := defaults - {ActiveGameKey};
    }
  }

  /** Under the invariant, at most one listed game is active. */
  lemma ValidHasAtMostOneActive(m: GameManager)
    requires m.Valid()
    ensures AtMostOneActive(m.games)
  {
  }

  /** Under the invariant, the active game (if any) is the first active game of the list. */
  lemma ValidActiveIsFirstActive(m: GameManager)
    requires m.Valid()
    requires m.activeGame != null && m.activeGame.isActive
    ensures FirstActive(m.games) == m.activeGame
  {
  }
}
