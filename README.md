# GoalTrack in Dafny

A model of GoalTrack, an app that keeps the live score of a two-team game, and of its home-screen widget.

- **Game** (`Models`). A game has an id, two team names, two scores, an active flag and a date. It is a class whose score methods change it in place. Incrementing adds one. Decrementing subtracts one only when the score is above zero. Ending the game clears the flag. The game's dictionary form (`toDictionary`/`fromDictionary`) is modelled as the pure pair `Encode`/`Decode` over a `GameRecord` value. They are proved to round-trip. `Decode` is proved to reject a missing or mistyped key and an id that is not a UUID.
- **GameManager** (`ViewModels`). This class holds the games, newest first, and the one active game. Both refer to the same `Game` objects. Every save outcome of the persistent store is a `saved` parameter. The shared App Group user defaults are a `map<string, Value>` field. The methods state their full effect: on the active game's record (only the chosen team's score changes), on the list, and on the `"activeGame"` snapshot in the defaults. The manager's invariant `Valid()` says: the active game is listed; each game is listed once; no other listed game is active; no score is negative. The score, create and end methods keep `Valid()`. The initialiser and `LoadGames` establish it only when the fetched list is consistent (the initialiser also after a failed fetch, which leaves the list empty) (`StoreConsistent`: each game listed once, at most one active, no negative score), because they take whatever the store returns.
- **Widget** (`GoalTrackWidget`). `LoadActiveGame` is the validating reader of the snapshot. It is proved to show exactly the game the app shared, when that game is active. It is also proved to agree with `Decode`. The placeholder entry and the one-entry timeline are modelled too.
- **Views**. These are the score editor's counter (`EditScoreView.ScoreEditor`), the new-game form's whitespace-trimmed validation (`CreateGameView`), and the history list's filter and winner/tie/highlight decision (`GameHistoryView`).

`Platform` holds the platform values these depend on:
- `Option`.
- An opaque `Timestamp` for `Date`.
- `Uuid`, modelled as its canonical `uuidString`. `ParseUuid` accepts the 8-4-4-4-12 hex form in either case.
- The tagged property-list `Value` and the `as?` casts on it.
- `Trimmed`, for `trimmingCharacters(in: .whitespaces)`: tab and the Unicode space separators, removed from both ends.

One behaviour the model makes explicit: when `createGame` runs with an active game and the save fails, that game stays ended. `activeGame` still refers to it, so `activeGame` is then not active. `ViewModels.GameManager.CreateGame` states this. Its invariant still holds.

## Model

| member | source | states |
|---|---|---|
| `Models.Game.constructor` | GoalTrack/Models/Game.swift:14-22 | a new game has the given names and id, both scores 0, and is active |
| `Models.Game.IncrementTeam1Score` | GoalTrack/Models/Game.swift:24-26 | team 1's score rises by exactly one; every other field is unchanged |
| `Models.Game.IncrementTeam2Score` | GoalTrack/Models/Game.swift:28-30 | team 2's score rises by exactly one; every other field is unchanged |
| `Models.Game.DecrementTeam1Score` | GoalTrack/Models/Game.swift:32-36 | team 1's score becomes `Decremented` of the old one; every other field is unchanged |
| `Models.Game.DecrementTeam2Score` | GoalTrack/Models/Game.swift:38-42 | team 2's score becomes `Decremented` of the old one; every other field is unchanged |
| `Models.Decremented` | GoalTrack/Models/Game.swift:32-42 | the result is the score or one less; it is unchanged exactly when the score is not positive; a non-negative score stays non-negative |
| `Models.Game.EndGame` | GoalTrack/Models/Game.swift:44-46 | only the active flag changes, to false; ending an ended game changes nothing (idempotent) |
| `Models.Encode` | GoalTrack/Models/Game.swift:51-61 | the dictionary form has exactly the seven keys id, team1Name, team2Name, team1Score, team2Score, isActive, date (`Game.ToDictionary` is `Encode` applied to the game's record) |
| `Models.Decode` | GoalTrack/Models/Game.swift:63-82 | a game is decoded if and only if every key is present with its type and the id text is a UUID; the id is the parsed UUID; re-encoding the result gives back the dictionary's id, name, score and flag entries, with the id in canonical form |
| `Models.DecodeEncode` | GoalTrack/Models/Game.swift:51-82 | decoding a game's dictionary form gives back the same game: the same id, names, scores and flag |
| `Models.Game.FromDictionary` | GoalTrack/Models/Game.swift:63-82 | returns null exactly when `Decode` fails, and otherwise a fresh game carrying the decoded fields |
| `Models.WithScore` | GoalTrack/ViewModels/GameManager.swift:99-109 | team dispatch: the chosen team's score is set; team 1 leaves team 2's score alone, any other number leaves team 1's alone; nothing but the scores changes |
| `Models.ClampedScore` | GoalTrack/ViewModels/GameManager.swift:102-106 | `max(0, n)`: never negative, never below `n`, and either `n` or 0 |
| `Platform.ParseUuid` | GoalTrack/Models/Game.swift:64-65 | `UUID(uuidString:)` succeeds exactly on 8-4-4-4-12 hex text; upper-case digits are kept as they are; the parsed UUID equals the text up to the case of its hex letters |
| `Platform.ParseUuidIgnoresCase` | GoalTrack/Models/Game.swift:64-65 | parsing is case-insensitive: text that spells a UUID with any mix of lower- and upper-case hex letters parses to that UUID |
| `Platform.ParseUuidString` | GoalTrack/Models/Game.swift:53-65 | parsing a UUID's own `uuidString` gives back that UUID |
| `Platform.AsDict` | GoalTrackWidget/GoalTrackWidget.swift:28-29 | `dictionary(forKey:)` succeeds exactly when the key holds a dictionary, and returns that dictionary |
| `Platform.LeadingWhitespace` | GoalTrack/Views/CreateGameView.swift:84 | the count is the length of the whitespace run that starts the string: all of it whitespace, and the next character is not |
| `Platform.TrailingWhitespace` | GoalTrack/Views/CreateGameView.swift:85 | the count is the length of the whitespace run that ends the string |
| `Platform.Trimmed` | GoalTrack/Views/CreateGameView.swift:83-87 | the result is the middle of the string, with only whitespace around it; it is empty exactly when the string is all whitespace, and otherwise starts and ends with a non-whitespace character |
| `ViewModels.FirstActiveIndex` | GoalTrack/ViewModels/GameManager.swift:44 | `first(where: isActive)`: the index found holds an active game and no earlier game is active; `None` exactly when no game is active (`FirstActive` returns the game at this index, or `null`) |
| `ViewModels.GameManager.constructor` | GoalTrack/ViewModels/GameManager.swift:15-35 | the manager starts empty and loads the games; the invariant holds when the store's contents are consistent, or when the fetch failed |
| `ViewModels.GameManager.LoadGames` | GoalTrack/ViewModels/GameManager.swift:37-53 | after a fetch the list is what the store returned, the active game is its first active game (or null), and that game is shared; a failed fetch changes nothing; a consistent store gives the invariant |
| `ViewModels.GameManager.CreateGame` | GoalTrack/ViewModels/GameManager.swift:55-73 | the previously active game is ended; on a successful save a fresh active game with the given names and scores 0 becomes the active game, sits at index 0, the list grows by exactly that game, and its snapshot is shared; on a failed save the list, the active reference and the defaults are unchanged; the invariant is kept |
| `ViewModels.GameManager.IncrementScore` | GoalTrack/ViewModels/GameManager.swift:75-85 | no-op without an active game; otherwise only the chosen team's score rises by one, and a successful save shares the new snapshot; the invariant is kept |
| `ViewModels.GameManager.DecrementScore` | GoalTrack/ViewModels/GameManager.swift:87-97 | no-op without an active game; otherwise only the chosen team's score is decremented (floored at zero), and a successful save shares the new snapshot; the invariant is kept |
| `ViewModels.GameManager.UpdateScore` | GoalTrack/ViewModels/GameManager.swift:99-109 | no-op without an active game; otherwise only the chosen team's score becomes `max(0, newScore)`, and a successful save shares the new snapshot; the invariant (scores never negative) is kept |
| `ViewModels.GameManager.EndCurrentGame` | GoalTrack/ViewModels/GameManager.swift:111-120 | the ended game stays in the list with its flag cleared, the active game becomes null and the "activeGame" key is removed, whatever the save outcome; the invariant is kept |
| `ViewModels.GameManager.SaveGame` | GoalTrack/ViewModels/GameManager.swift:122-132 | after a successful save with an active game, the snapshot under "activeGame" is that game's dictionary form; otherwise the defaults are unchanged |
| `ViewModels.GameManager.ShareActiveGameWithWidget` | GoalTrack/ViewModels/GameManager.swift:134-143 | the "activeGame" entry becomes the game's dictionary form, which decodes back to the game |
| `ViewModels.GameManager.ClearWidgetData` | GoalTrack/ViewModels/GameManager.swift:145-149 | only the "activeGame" entry is removed |
| `ViewModels.ValidHasAtMostOneActive` | GoalTrack/ViewModels/GameManager.swift:55-67 | under the manager's invariant at most one listed game is active |
| `ViewModels.ValidActiveIsFirstActive` | GoalTrack/ViewModels/GameManager.swift:44 | under the invariant an active `activeGame` is the first active game of the list, so reloading selects it again |
| `GoalTrackWidget.LoadActiveGame` | GoalTrackWidget/GoalTrackWidget.swift:27-48 | `None` without an "activeGame" dictionary; a game if and only if both names and both scores are present with their types and `isActive` is true; the result carries the stored names and scores unchanged |
| `GoalTrackWidget.WidgetShowsSharedGame` | GoalTrackWidget/GoalTrackWidget.swift:27-48 | after the app shares a game, the widget reads back its names and scores if it is active, and no game if it is not |
| `GoalTrackWidget.WidgetShowsNothingAfterClear` | GoalTrackWidget/GoalTrackWidget.swift:28-31 | after the app clears the slot, the widget shows no game |
| `GoalTrackWidget.WidgetAgreesWithDecode` | GoalTrackWidget/GoalTrackWidget.swift:33-47 | every dictionary `fromDictionary` accepts is read by the widget as the decoded game's names and scores, exactly when that game is active |
| `GoalTrackWidget.Placeholder` | GoalTrackWidget/GoalTrackWidget.swift:7-9 | the placeholder entry has no game |
| `GoalTrackWidget.GetSnapshot` | GoalTrackWidget/GoalTrackWidget.swift:11-14 | one entry for now, carrying exactly what `loadActiveGame` reads from the defaults; so a game only when the defaults hold an "activeGame" entry |
| `GoalTrackWidget.GetTimeline` | GoalTrackWidget/GoalTrackWidget.swift:16-25 | the timeline holds exactly one entry, the snapshot entry for now, and reloads after the given time |
| `EditScoreView.ScoreEditor.constructor` | GoalTrack/Views/EditScoreView.swift:14-19 | the editor starts with `newScore == currentScore` |
| `EditScoreView.ScoreEditor.Minus` | GoalTrack/Views/EditScoreView.swift:45-56 | when the button is disabled (`newScore <= 0`) nothing changes; otherwise `newScore` drops by exactly one |
| `EditScoreView.MinusNeverNegative` | GoalTrack/Views/EditScoreView.swift:45-50 | any number of minus presses from a non-negative score ends at that score less the presses, floored at 0, so never below 0 |
| `EditScoreView.ScoreEditor.Plus` | GoalTrack/Views/EditScoreView.swift:58-61 | `newScore` rises by exactly one |
| `EditScoreView.ScoreEditor.EnterManually` | GoalTrack/Views/EditScoreView.swift:75 | the manual field sets `newScore` to the number entered, negative included |
| `EditScoreView.ScoreEditor.Save` | GoalTrack/Views/EditScoreView.swift:89-91 | the manager's active game gets `max(0, newScore)` for this team, as `updateScore` does, and the sheet is dismissed |
| `EditScoreView.ScoreEditor.Cancel` | GoalTrack/Views/EditScoreView.swift:107-111 | the sheet is dismissed; the manager is not touched |
| `CreateGameView.IsFormValid` | GoalTrack/Views/CreateGameView.swift:15-18 | valid if and only if each name has a character that is not whitespace, so an all-whitespace name makes the form invalid |
| `CreateGameView.CreateButtonDisabled` | GoalTrack/Views/CreateGameView.swift:56 | the Create button is disabled exactly when one of the names is empty or all whitespace |
| `CreateGameView.CreateGame` | GoalTrack/Views/CreateGameView.swift:83-88 | the manager creates the game with the trimmed names, not the raw ones |
| `CreateGameView.SubmitTeam2Name` | GoalTrack/Views/CreateGameView.swift:36-40 | submitting from the team-2 field changes nothing when the form is invalid; otherwise it has the whole effect of `createGame` on trimmed names: the old active game is ended; on a successful save the new game is active, has scores 0-0, is put first in the list and shared with the widget, and its names are non-empty and trimmed; on a failed save the list, active game and defaults stay as they were |
| `GameHistoryView.CompletedGames` | GoalTrack/Views/GameHistoryView.swift:6-8 | every game in the result is listed and ended, and every ended listed game is in the result |
| `GameHistoryView.CompletedGamesAppend` | GoalTrack/Views/GameHistoryView.swift:6-8 | the filter distributes over concatenation, so it keeps the relative order of `games` |
| `GameHistoryView.ShowsNoHistory` | GoalTrack/Views/GameHistoryView.swift:12-17 | the "No Game History" placeholder shows exactly when no listed game has ended |
| `GameHistoryView.HistoryRow` | GoalTrack/Views/GameHistoryView.swift:55-96 | a tie exactly when the scores are equal; otherwise the named winner is the team with the strictly greater score; a score is highlighted if and only if it is strictly greater, so never both, and neither exactly on a tie |

## Left out

- Persistence: the SwiftData container, context, `insert` and fetch descriptors. Also the `fatalError` when the container cannot be built. Each `save()` outcome is a `saved` parameter. Each fetch is an `Option` (`None` when it throws). A game inserted by a failed `createGame` is not tracked.
- `ViewModels.GameManager.CreateGame`: the pending insert of a failed save is not modelled. In the source the new game is inserted before the save (GoalTrack/ViewModels/GameManager.swift:62-65), and a failed save only prints (70-72). The insert can stay pending, and a later successful save can store it as an active game. For example, a failed `createGame` followed by a successful one stores two active games. The next `loadGames` (43-44) then lists two active games, which breaks `StoreConsistent`. The older one stays active and out of the history until the newer one is ended and the games are reloaded at the next launch. This follows from reading the code; it was not executed.
- The newest-first sort of `loadGames`: the store does it, and dates are opaque here. `loadGames` takes the fetched list in the order given.
- The `UserDefaults(suiteName:)` lookup and `synchronize()`. The suite is assumed to exist, so its failure branches (a print and a return) are not modelled.
- `WidgetCenter.reloadAllTimelines`, the five-minute `Calendar` arithmetic (the caller passes `nextUpdate`), and timeline scheduling.
- `Models.Decode`: its re-encoding clause also gives back the `date` entry exactly. That holds only because `Timestamp` is the since-1970 interval itself. The source stores a `Date` as a `Double` counted from 2001, and its conversions through `timeIntervalSince1970` (GoalTrack/Models/Game.swift:59, 80) can move the date by one unit in the last place.
- `Models.DecodeEncode`: its equality also covers the `date` field. That holds only because `Timestamp` is the since-1970 interval itself. The source's `Double` conversions (GoalTrack/Models/Game.swift:59, 80) can move the date by one unit in the last place, so the decoded `Date` need not equal the original.
- `Date` and `TimeInterval` are opaque. `Timestamp` only carries the interval since 1970, and no date arithmetic or `DateFormatter` output is modelled.
- UUID generation (`UUID()`): the caller supplies the id.
- Foundation's number bridging in property lists. Values are tagged, and an `as?` cast succeeds only on the same tag. So a stored `Bool` does not read back as an `Int`.
- `Platform.Trimmed` works on Unicode scalars, not grapheme clusters, so a combining mark on a space is not modelled.
- `dismiss()` after creating a game, focus handling, navigation, layout, animation and colours. ActiveGameView, ContentView, GameWidgetView and the app entry point are not part of this model.
- `@MainActor` and `@Published` observation.
- Swift `Int` overflow traps: scores are unbounded integers.
