/**
 * The home-screen widget: it reads the active game's snapshot from the
 * shared defaults and shows its names and scores, or "No Active Game".
 */
module GoalTrackWidget {
  import opened Platform
  import opened SharedDefaults
  import opened Models

  /** What the widget shows of a game. */
  datatype GameData = GameData(team1Name: string, team2Name: string, team1Score: int, team2Score: int)

  /** One timeline entry; `game` is `None` when there is no active game to show. */
  datatype GameEntry = GameEntry(date: Timestamp, game: Option<GameData>)

  /** `.after(date)`: ask for a new timeline once `date` has passed. */
  datatype ReloadPolicy = After(date: Timestamp)

  datatype Timeline = Timeline(entries: seq<GameEntry>, policy: ReloadPolicy)

  /** The names and scores of a game, as the widget shows them. */
  function DataOf(g: GameRecord): GameData {
    GameData(g.team1Name, g.team2Name, g.team1Score, g.team2Score)
  }

  /** The snapshot holds both names and both scores with their types, and an `isActive` that is true. */
  predicate IsActiveSnapshot(snapshot: map<string, Value>) {
    && Team1NameKey in snapshot && snapshot[Team1NameKey].VString?
    && Team2NameKey in snapshot && snapshot[Team2NameKey].VString?
    && Team1ScoreKey in snapshot && snapshot[Team1ScoreKey].VInt?
    && Team2ScoreKey in snapshot && snapshot[Team2ScoreKey].VInt?
    && IsActiveKey in snapshot && snapshot[IsActiveKey] == VBool(true)
  }

  /**
   * `loadActiveGame()`: the game data under "activeGame", or `None` when
   * there is no dictionary there, a name or score is missing or mistyped,
   * or the game is not active. The id and date are not looked at.
   */
  function LoadActiveGame(defaults: Defaults): (r: Option<GameData>)
    ensures ActiveGameKey !in defaults || !defaults[ActiveGameKey].VDict? ==> r.None?
    ensures r.Some? <==>
      ActiveGameKey in defaults && defaults[ActiveGameKey].VDict? && IsActiveSnapshot(defaults[ActiveGameKey].dict)
    ensures r.Some? ==>
      var snapshot := defaults[ActiveGameKey].dict;
      r.value == GameData(
        snapshot[Team1NameKey].str, snapshot[Team2NameKey].str,
        snapshot[Team1ScoreKey].number, snapshot[Team2ScoreKey].number)
  {
    var gameDict :- AsDict(defaults, ActiveGameKey);
    var team1Name :- AsString(gameDict, Team1NameKey);
    var team2Name :- AsString(gameDict, Team2NameKey);
    var team1Score :- AsInt(gameDict, Team1ScoreKey);
    var team2Score :- AsInt(gameDict, Team2ScoreKey);
    var isActive :- AsBool(gameDict, IsActiveKey);
    if !isActive then None
    else Some(GameData(team1Name, team2Name, team1Score, team2Score))
  }

  /** `placeholder(in:)`: an entry with no game. */
  function Placeholder(now: Timestamp): (e: GameEntry)
    ensures e.date == now && e.game.None?
  {
    GameEntry(now, None)
  }

  /** `getSnapshot(in:completion:)`: one entry for now, with whatever game the defaults hold. */
  function GetSnapshot(now: Timestamp, defaults: Defaults): (e: GameEntry)
    ensures e.date == now
    ensures e.game == LoadActiveGame(defaults)
    ensures e.game.Some? ==> ActiveGameKey in defaults
  {
    GameEntry(now, LoadActiveGame(defaults))
  }

  /**
   * `getTimeline(in:completion:)`: a single entry for now, reloaded after
   * `nextUpdate` (five minutes later; the calendar arithmetic is the caller's).
   */
  function GetTimeline(now: Timestamp, nextUpdate: Timestamp, defaults: Defaults): (t: Timeline)
    ensures |t.entries| == 1
    ensures t.entries[0] == GetSnapshot(now, defaults)
    ensures t.policy == After(nextUpdate)
  {
    Timeline([GameEntry(now, LoadActiveGame(defaults))], After(nextUpdate))
  }

  /**
   * Whatever else the defaults hold, once the app has shared a game the
   * widget shows that game's names and scores if it is active, and no
   * game if it is not.
   */
  lemma WidgetShowsSharedGame(defaults: Defaults, g: GameRecord)
    ensures LoadActiveGame(defaults[ActiveGameKey := VDict(Encode(g))]) ==
      if g.isActive then Some(DataOf(g)) else None
  {
  }

  /** Once the app has cleared the slot, the widget shows no game. */
  lemma WidgetShowsNothingAfterClear(defaults: Defaults)
    ensures LoadActiveGame(defaults - {ActiveGameKey}).None?
  {
  }

  /**
   * The widget accepts every dictionary that `Game.fromDictionary` accepts,
   * and shows the decoded game exactly when it is active.
   */
  lemma WidgetAgreesWithDecode(snapshot: map<string, Value>)
    requires Decode(snapshot).Some?
    ensures LoadActiveGame(map[ActiveGameKey := VDict(snapshot)]) ==
      if Decode(snapshot).value.isActive then Some(DataOf(Decode(snapshot).value)) else None
  {
  }
}
