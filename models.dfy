/**
 * One game: two team names, two scores, an active flag, an id and a date,
 * and the dictionary form in which a game is handed to the widget.
 */
module Models {
  import opened Platform

  const IdKey := "id"
  const Team1NameKey := "team1Name"
  const Team2NameKey := "team2Name"
  const Team1ScoreKey := "team1Score"
  const Team2ScoreKey := "team2Score"
  const IsActiveKey := "isActive"
  const DateKey := "date"

  /** The keys of a game's dictionary form. */
  const SnapshotKeys: set<string> :=
    {IdKey, Team1NameKey, Team2NameKey, Team1ScoreKey, Team2ScoreKey, IsActiveKey, DateKey}

  /** The stored fields of a game, as one value. */
  datatype GameRecord = GameRecord(
    id: Uuid,
    team1Name: string,
    team2Name: string,
    team1Score: int,
    team2Score: int,
    isActive: bool,
    date: Timestamp)

  // Scores

  /** The score of `team`, where 1 means team 1 and any other number team 2. */
  function ScoreOf(g: GameRecord, team: int): int {
    if team == 1 then g.team1Score else g.team2Score
  }

  /** `g` with the score of `team` (1, or any other number for team 2) set to `score`. */
  function WithScore(g: GameRecord, team: int, score: int): (h: GameRecord)
    ensures ScoreOf(h, team) == score
    ensures team == 1 ==> h.team2Score == g.team2Score
    ensures team != 1 ==> h.team1Score == g.team1Score
    ensures h.(team1Score := 0, team2Score := 0) == g.(team1Score := 0, team2Score := 0)
  {
    if team == 1 then g.(team1Score := score) else g.(team2Score := score)
  }

  /** A score after one decrement: one less, but only when it is above zero. */
  function Decremented(score: int): (r: int)
    ensures r <= score <= r + 1
    ensures r == score <==> score <= 0
    ensures score >= 0 ==> r >= 0
  {
    if score > 0 then score - 1 else score
  }

  /** `max(0, n)`: the score stored for a manual entry of `n`. */
  function ClampedScore(n: int): (r: int)
    ensures r >= 0 && r >= n
    ensures r == n || r == 0
  {
    if n < 0 then 0 else n
  }

  // Dictionary form

  /** `toDictionary()`: every field under its key, the id as its `uuidString`. */
  function Encode(g: GameRecord): (d: map<string, Value>)
    ensures d.Keys == SnapshotKeys
  {
    map[
      IdKey := VString(g.id),
      Team1NameKey := VString(g.team1Name),
      Team2NameKey := VString(g.team2Name),
      Team1ScoreKey := VInt(g.team1Score),
      Team2ScoreKey := VInt(g.team2Score),
      IsActiveKey := VBool(g.isActive),
      DateKey := VDouble(g.date.sinceEpoch)]
  }

  /** Every key of the dictionary form is present with a value of its type, and the id parses. */
  predicate IsGameSnapshot(d: map<string, Value>) {
    && IdKey in d && d[IdKey].VString? && IsUuidText(d[IdKey].str)
    && Team1NameKey in d && d[Team1NameKey].VString?
    && Team2NameKey in d && d[Team2NameKey].VString?
    && Team1ScoreKey in d && d[Team1ScoreKey].VInt?
    && Team2ScoreKey in d && d[Team2ScoreKey].VInt?
    && IsActiveKey in d && d[IsActiveKey].VBool?
    && DateKey in d && d[DateKey].VDouble?
  }

  /** The entries of `d` under the keys of the dictionary form. */
  function SnapshotPart(d: map<string, Value>): map<string, Value> {
    map k | k in d && k in SnapshotKeys :: d[k]
  }

  /**
   * `fromDictionary`: a game when every field is present with the right
   * type and the id is a valid UUID; `None` otherwise. Keys outside the
   * dictionary form are ignored, and encoding the result gives back the
   * dictionary's own entries, with the id in canonical (upper-case) form.
   */
  function Decode(d: map<string, Value>): (r: Option<GameRecord>)
    ensures r.Some? <==> IsGameSnapshot(d)
    ensures r.Some? ==> Some(r.value.id) == ParseUuid(d[IdKey].str)
    ensures r.Some? ==> Encode(r.value) == SnapshotPart(d)[IdKey := VString(r.value.id)]
  {
    var idText :- AsString(d, IdKey);
    var id :- ParseUuid(idText);
    var team1Name :- AsString(d, Team1NameKey);
    var team2Name :- AsString(d, Team2NameKey);
    var team1Score :- AsInt(d, Team1ScoreKey);
    var team2Score :- AsInt(d, Team2ScoreKey);
    var isActive :- AsBool(d, IsActiveKey);
    var interval :- AsDouble(d, DateKey);
    Some(GameRecord(id, team1Name, team2Name, team1Score, team2Score, isActive, Timestamp(interval)))
  }

  /** Decoding a game's dictionary form gives back the same game. */
  lemma {:induction false} DecodeEncode(g: GameRecord)
    ensures Decode(Encode(g)) == Some(g)
  {
    ParseUuidString(g.id);
  }

  /** A game, updated in place by the score screens and the manager. */
  class Game {
    var id: Uuid
    var team1Name: string
    var team2Name: string
    var team1Score: int
    var team2Score: int
    var isActive: bool
    var date: Timestamp

    function Record(): GameRecord
      reads this
    {
      GameRecord(id, team1Name, team2Name, team1Score, team2Score, isActive, date)
    }

    /** A new game, active and scoreless. `UUID()` and `Date()` are supplied by the caller. */
    constructor (team1Name: string, team2Name: string, id: Uuid, date: Timestamp)
      ensures Record() == GameRecord(id, team1Name, team2Name, 0, 0, true, date)
    {
      this.id := id;
      this.team1Name := team1Name;
      this.team2Name := team2Name;
      this.team1Score := 0;
      this.team2Score := 0;
      this.isActive := true;
      this.date := date;
    }

    method IncrementTeam1Score()
      modifies this
      ensures Record() == WithScore(old(Record()), 1, old(team1Score) + 1)
    {
      team1Score := team1Score + 1;
    }

    method IncrementTeam2Score()
      modifies this
      ensures Record() == WithScore(old(Record()), 2, old(team2Score) + 1)
    {
      team2Score := team2Score + 1;
    }

    method DecrementTeam1Score()
      modifies this
      ensures Record() == WithScore(old(Record()), 1, Decremented(old(team1Score)))
    {
      if team1Score > 0 {
        team1Score := team1Score - 1;
      }
    }

    method DecrementTeam2Score()
      modifies this
      ensures Record() == WithScore(old(Record()), 2, Decremented(old(team2Score)))
    {
      if team2Score > 0 {
        team2Score := team2Score - 1;
      }
    }

    /** Clears the active flag and nothing else; ending an ended game changes nothing. */
    method EndGame()
      modifies this
      ensures Record() == old(Record()).(isActive := false)
      ensures !old(isActive) ==> Record() == old(Record())
    {
      isActive := false;
    }

    function ToDictionary(): map<string, Value>
      reads this
    {
      Encode(Record())
    }

    /** `Game.fromDictionary`: a fresh game carrying the decoded fields, or null. */
    static method FromDictionary(dict: map<string, Value>) returns (game: Game?)
      ensures game == null <==> Decode(dict).None?
      ensures game != null ==> fresh(game) && game.Record() == Decode(dict).value
    {
      var decoded := Decode(dict);
      if decoded.None? {
        return null;
      }
      var g := decoded.value;
      game := new Game(g.team1Name, g.team2Name, g.id, g.date);
      game.team1Score := g.team1Score;
      game.team2Score := g.team2Score;
      game.isActive := g.isActive;
    }
  }
}
