# HK-Pass admin console — a Dafny model

HK-Pass runs a team game night. A Django REST backend keeps four
collections: teams, players, mini-games and common settings. A React
console reads and edits them. This project models the console's screens
and the part of the backend they rely on, and proves what the screens do
to the backend and to their own state.

- **Backend** (`Server`). Three collections of records, each a map from id
  to record, plus the next free id and a log of every request sent. The
  transport can fail: `outages` is the set of log positions whose request
  never reaches the server. Each REST request (PATCH, POST, DELETE on
  teams, players and mini-games) is a pure step function. The step returns
  the new state and either the stored record or the failure: a network
  error, a 404 for a missing id, or a 400 for a body the serializer refuses.
  A character field strips its text with Python's `str.strip()`, whose white
  space is not the console's `trim` white space.
  `Backend` is a class whose methods are proved equal to those steps.
- **Records** (`Records`). The JSON values the console handles: `Number()`
  coercion, truthiness, the text shown in a cell, and a player's team field
  (an id, an embedded object, or nothing).
- **Screens**. One module per component. A component with state is a class
  whose fields are its React state. Each handler is a method that states the
  new component state and, where it talks to the backend, is proved equal
  to a pure specification function. The lemmas say what those functions
  mean.
  - `AttackForm`: the three-request attack.
  - `GameScore`: scoring a mini-game.
  - `Dashboard`: the admin table and its creation rows.
  - `BatchCreate`: the batch-creation tabs.
  - `GameSettings`: the mini-game settings.
  - `MemberList`: privacy switches.
  - `RankingDashboard`: the four leaderboards.
  - `TeamRankingBarChart`: the bar chart.
  - `TeamDashboard`: the older, local-only team panel.
  - `MainMenu`: the password gate.
- **Shared logic**.
  - `Text`: JavaScript `trim`, ASCII `toLowerCase`, `parseInt`, `Number`
    on strings, and integer `toString`.
  - `Lists`: `filter`, `find`, replace-by-id, remove-by-id and `slice`.
  - `Sorting`: a stable descending insertion sort, both as a function and
    as an in-place array method proved to compute that function.
  - `PlayerNumbers`: the proposed next player number.
  - `Display`: the masking of hidden values.
  - `Creation`: the creation payloads.
  - `EditableCell`: the inline editor.
  - `GameService`: the displayed-game catalogue.

Inputs the console only receives are parameters of the model. A fetched
list is an `Option`, where `None` means the fetch failed and was only
logged. The answer to a confirmation dialog is a `confirmed` flag. The data
of a re-fetch after a mutation is a `reload` parameter. What the user is
alerted to is the handler's outcome value.

Four things in the source are worth knowing when reading the model:

- `TeamDashboard` and `TeamRankingBarChart` read `team.number`, a field the
  backend's teams do not have. `TeamDashboard.NoNumberNoTeamChanges` shows
  that with such records the local attack changes no team.
- The admin table sorts players with `parseInt(a.number) - parseInt(b.number)`.
  This is modelled as a stable sort on the parsed number, with unparseable
  numbers as 0.
- `BatchCreate` increments the number field with `parseInt(...) + 1`. A field
  that never received a proposal becomes `"NaN"`:
  `PlayerNumbers.IncrementedOfEmpty`.
- The console checks blank fields with JavaScript's `trim`, and the backend
  with Python's `str.strip()`. A name of U+001F passes the console's check
  and is refused by the server; a lone U+FEFF would fail the console's check
  but is stored by the server when sent unchecked, as the batch form does:
  `Server.StripIsNotTrim`, `BatchCreate.ByteOrderMarkNameCreated`.

## Model

| member | source | states |
|---|---|---|
| Server.StripStartSpec | backend/game/models.py:4 | the start of `str.strip()` drops exactly a prefix of Python white space and leaves a result that is empty or starts with other text |
| Server.StripEndSpec | backend/game/models.py:4 | its end drops exactly a suffix of Python white space, likewise |
| Server.StripBlankIffAllPythonSpaces | backend/game/models.py:4 | a text strips to nothing, which a character field refuses, iff every character is Python white space |
| Server.StripIdempotent | backend/game/models.py:4 | stripping twice is stripping once |
| Server.StripIsNotTrim | backend/game/models.py:4 | the backend's strip and the console's `trim` differ: U+001F strips to nothing but is not blank to `trim`; U+FEFF is blank to `trim` but survives the strip, and "\uFEFFA" is stored as sent |
| Server.StripAgreesWithTrim | backend/game/models.py:4 | on text whose every character is white space to both languages or to neither, strip and `trim` agree |
| Server.MergeTeam | backend/game/models.py:3-8 | a PATCH never changes the team's id |
| Server.MergePlayer | backend/game/models.py:13-23 | a PATCH never changes the player's id |
| Server.MergeGame | backend/game/models.py:28-36 | a PATCH never changes the mini-game's id |
| Server.AsTeamRef | backend/game/models.py:19 | an accepted team reference names an existing team or is empty; an embedded object is never accepted |
| Server.Sent | game/views.py:7-21 | sending a request appends exactly it to the log and changes no collection |
| Server.PatchTeamStep | game/views.py:7-11 | PATCH on a team: success iff the request gets through, the id exists and the body is valid (a name does not strip to nothing under `str.strip()`, the other fields have their JSON types); otherwise a network error, a 404 or a 400 respectively; on success the merged team is stored and returned; the other collections never change |
| Server.PatchPlayerStep | game/views.py:13-17 | the same for players, where the team reference must name an existing team |
| Server.PatchGameStep | game/views.py:19-21 | the same for mini-games |
| Server.PostTeamStep | game/views.py:7-11 | POST a team: success iff it gets through, has a name that does not strip to nothing and a valid body; a fresh id is used and stored; on failure nothing is stored and the id counter is kept |
| Server.PostPlayerStep | game/views.py:13-17 | POST a player: name and number are required and must not strip to nothing, otherwise a 400; same storage rules |
| Server.PostGameStep | game/views.py:19-21 | POST a mini-game: category, room and name are required and must not strip to nothing, otherwise a 400 |
| Server.DeletePlayerStep | game/views.py:13-17 | DELETE a player: success iff it gets through and the id exists (else a network error or a 404); exactly that id leaves the map |
| Server.DeleteGameStep | game/views.py:19-21 | DELETE a mini-game, the same way |
| Server.MergeTeamEmpty | backend/game/models.py:3-8 | an empty PATCH body leaves the team unchanged |
| Server.MergeTeamScore | backend/game/models.py:5 | a one-field score body is valid and changes only the score |
| Server.MergeTeamAttacked | backend/game/models.py:6 | a one-field attack-count body is valid and changes only the attack count |
| Server.MergePlayerPersonalScore | backend/game/models.py:16 | a one-field personal-score body is valid and changes only that field |
| Server.MergePlayerChips | backend/game/models.py:17 | a one-field chips body is valid and changes only the chips |
| Server.MergeGamePlayCount | backend/game/models.py:36 | a one-field play-count body is valid and changes only the play count |
| Server.PatchTeamScoreOk | game/views.py:7-11 | a score PATCH that gets through to an existing team stores score n, answers that team and logs the request |
| Server.PatchTeamAttackedOk | game/views.py:7-11 | the same for the attack count |
| Server.PatchPlayerScoreOk | game/views.py:13-17 | the same for a player's personal score |
| Server.MergeTeamIdempotent | backend/game/models.py:3-8 | re-applying a PATCH body changes nothing more |
| Server.PatchTeamStepValid | game/views.py:7-11 | a team PATCH keeps the state well formed (ids match keys and lie below the next id; every player's team exists) |
| Server.PatchPlayerStepValid | game/views.py:13-17 | a player PATCH keeps the state well formed |
| Server.PostTeamStepValid | game/views.py:7-11 | creating a team keeps the state well formed |
| Server.PostPlayerStepValid | game/views.py:13-17 | creating a player keeps the state well formed |
| Server.PatchGameStepValid | game/views.py:19-21 | a mini-game PATCH keeps the state well formed |
| Server.PostGameStepValid | game/views.py:19-21 | creating a mini-game keeps the state well formed |
| Server.DeletePlayerStepValid | game/views.py:13-17 | deleting a player keeps the state well formed |
| Server.DeleteGameStepValid | game/views.py:19-21 | deleting a mini-game keeps the state well formed |
| Server.NewPlayerTeamExists | backend/game/models.py:19 | a created player's team, if any, exists |
| Server.PostTeamFreshId | game/views.py:7-11 | a created team's id belongs to no existing team |
| Server.DeleteThenPatch | game/views.py:13-17 | a PATCH of a just-deleted player is a 404 |
| Server.Backend.constructor | game/urls.py:5-8 | the backend starts in the given state |
| Server.Backend.PatchTeam | game/views.py:7-11 | the new state and answer are exactly `PatchTeamStep` of the old state |
| Server.Backend.PatchPlayer | game/views.py:13-17 | exactly `PatchPlayerStep` |
| Server.Backend.PatchGame | game/views.py:19-21 | exactly `PatchGameStep` |
| Server.Backend.PostTeam | game/views.py:7-11 | exactly `PostTeamStep` |
| Server.Backend.PostPlayer | game/views.py:13-17 | exactly `PostPlayerStep` |
| Server.Backend.PostGame | game/views.py:19-21 | exactly `PostGameStep` |
| Server.Backend.DeletePlayer | game/views.py:13-17 | exactly `DeletePlayerStep` |
| Server.Backend.DeleteGame | game/views.py:19-21 | exactly `DeleteGameStep` |
| Records.ToNum | frontend/src/components/AttackForm.js:35 | `Number()`: an integer or NaN; integers are kept; a string converts iff its text is a number, and then to that number |
| Text.TrimStartSpec | frontend/src/components/AttackForm.js:45 | `trimStart` drops exactly a prefix of white space and leaves a result that is empty or starts unspaced |
| Text.TrimEndSpec | frontend/src/components/AttackForm.js:45 | `trimEnd` drops exactly a suffix of white space and leaves a result that is empty or ends unspaced |
| Text.TrimSegment | frontend/src/components/AttackForm.js:45 | `trim` yields a contiguous slice of the input with no white space at either end |
| Text.TrimIdempotent | frontend/src/components/MainMenu.js:85 | trimming twice is trimming once |
| Text.BlankIffAllSpaces | frontend/src/components/Dashboard.js:261 | `!s.trim()` holds iff every character is white space |
| Text.ToLowerChar | frontend/src/components/GameScore.js:75 | upper-case ASCII letters map to lower-case letters; everything else is kept |
| Text.ToLower | frontend/src/components/GameScore.js:75 | `toLowerCase` keeps the length and maps each character |
| Text.ParseInt | frontend/src/components/Dashboard.js:167 | `parseInt` gives a number only for non-blank text |
| Text.ToNumber | frontend/src/components/GameSettings.js:167 | `Number(text)` differs from `parseInt` only on blank text, which it reads as 0 where `parseInt` gives NaN; its round trip and its indifference to white space are `Text.ToNumberOfIntToString` and `Text.ToNumberOfTrim` |
| Text.ToNumberOfIntToString | frontend/src/components/GameSettings.js:167 | `Number(String(n)) == n` for every integer |
| Text.ToNumberOfTrim | frontend/src/components/GameSettings.js:167 | white space around the text does not change `Number(text)` |
| Text.NatToString | frontend/src/components/Dashboard.js:172 | the decimal text of n is all digits and reads back as n |
| Text.IntToString | frontend/src/components/Dashboard.js:172 | the text of an integer is digits, with a leading minus for a negative one |
| Text.ParseIntOfIntToString | frontend/src/components/Dashboard.js:164-173 | `parseInt(String(n)) == n` for every integer |
| Lists.Filter | frontend/src/components/AttackForm.js:15-18 | `filter` is shorter or equal, and holds exactly the elements that pass |
| Lists.FilterIsSubsequence | frontend/src/components/AttackForm.js:15-18 | `filter` keeps the elements in order |
| Lists.FilterAll | frontend/src/api/gameService.js:7-9 | when every element passes, `filter` returns the list unchanged |
| Lists.FilterLength | frontend/src/api/gameService.js:7-9 | `filter` keeps exactly as many elements as pass the test |
| Lists.FindIndex | frontend/src/components/GameScore.js:91 | `findIndex` finds nothing iff no element passes; otherwise the first that does |
| Lists.Find | frontend/src/components/GameScore.js:91 | `find` finds nothing iff no element passes; otherwise the element at that first index |
| Lists.Column | frontend/src/components/GameScore.js:122 | `map` keeps the length and maps each position |
| Lists.ReplaceById | frontend/src/components/GameScore.js:122 | `xs.map(m => m.id === y.id ? y : m)`: each position is y when its id matches, otherwise unchanged |
| Lists.ReplaceKeepsIds | frontend/src/components/MemberList.js:8 | replacing by id keeps the ids in the same order |
| Lists.ReplaceThenFind | frontend/src/components/Dashboard.js:189 | after the replacement the id is found and holds y when it was present; when absent, the list is unchanged |
| Lists.ReplaceIdempotent | frontend/src/components/Dashboard.js:212 | replacing twice with the same answer is replacing once |
| Lists.RemoveById | frontend/src/components/Dashboard.js:227 | the remaining elements are exactly those whose id differs |
| Lists.RemoveByIdSpec | frontend/src/components/Dashboard.js:227 | removal keeps order, removes exactly the matching entries, and leaves none with that id |
| Lists.CountComplement | frontend/src/components/Dashboard.js:227 | the elements with an id and the elements without it add up to the whole list |
| Lists.SliceTo | frontend/src/components/RankingDashboard.js:93-98 | `slice(0, end)` is a prefix of min(end, n) entries, or n+end for a negative end, or none for NaN |
| Lists.MaxWithFloor | frontend/src/components/TeamRankingBarChart.js:39 | the maximum is at least the floor and every element, and is the floor or an element |
| Lookup.TeamById | frontend/src/components/RankingDashboard.js:108 | a team is found only in the list and with the player's team id; none when the player has no id reference or no team in the list has that id |
| Sorting.InsertDescSorted | frontend/src/components/Dashboard.js:129 | inserting into a descending list keeps it descending |
| Sorting.InsertDescBounded | frontend/src/components/Dashboard.js:129 | a bound on every key of the list and on the inserted key bounds every key of the result |
| Sorting.InsertDescPermutes | frontend/src/components/Dashboard.js:129 | insertion adds exactly one occurrence of the element |
| Sorting.SortDescPermutes | frontend/src/components/Dashboard.js:129 | `sort` keeps exactly the elements, each as often (a permutation) |
| Sorting.SortDescSorted | frontend/src/components/Dashboard.js:129 | `sort((a, b) => key(b) - key(a))` yields descending keys |
| Sorting.SortDescOfSorted | frontend/src/components/RankingDashboard.js:60 | sorting an already descending list changes nothing |
| Sorting.SortDescStable | frontend/src/components/RankingDashboard.js:94 | the sort is stable: entries with equal keys keep their relative order |
| Sorting.InsertStep | frontend/src/components/Dashboard.js:129 | one pass of insertion in place leaves the array equal to the functional insertion |
| Sorting.SortInPlace | frontend/src/components/Dashboard.js:129 | the in-place sort leaves the array equal to `SortDesc` of its old contents |
| Display.DisplayValueByField | frontend/src/components/RankingDashboard.js:22-31 | the value shown is the value or "---"; for each masked field it is "---" iff its flag is set (or the value is already "---"); other fields are never masked |
| Display.TeamMasking | frontend/src/components/Dashboard.js:337-346 | a team's score and attack count are masked exactly by `hide_ranking`; the player fields are never masked for a team |
| Display.PlayerMasking | frontend/src/components/Dashboard.js:337-346 | a player's numbers are masked by their own flags; a player's team fields are never masked |
| Display.MaskIdempotent | frontend/src/components/RankingDashboard.js:22-31 | masking a shown value again changes nothing |
| EditableCell.Cell.constructor | frontend/src/components/Dashboard.js:6-10 | a cell starts out not editing, with the value's text in its buffer |
| EditableCell.Cell.SetValue | frontend/src/components/Dashboard.js:12-14 | a new value resets the buffer to its text |
| EditableCell.Cell.StartEditing | frontend/src/components/Dashboard.js:30-40 | a click enters edit mode and changes nothing else |
| EditableCell.Cell.Type | frontend/src/components/Dashboard.js:30-40 | typing sets the buffer only |
| EditableCell.Cell.FinishEditing | frontend/src/components/Dashboard.js:16-25 | finishing leaves edit mode and saves iff the buffer differs from the value's text, in which case it saves the buffer |
| EditableCell.UnchangedTextNeverSaves | frontend/src/components/GameSettings.js:23-28 | opening and closing a cell without typing never saves |
| EditableCell.NumberTextRoundTrip | frontend/src/components/Dashboard.js:176-180 | a number's shown text converts back to that number |
| EditableCell.LeadingZeroIsSaved | frontend/src/components/Dashboard.js:20-25 | the comparison is on text: "05" over 5 is saved, though it converts to the same number |
| EditableCell.EmptyEditOfNullNotSaved | frontend/src/components/Dashboard.js:8-10 | an empty edit of a null field is not a change |
| PlayerNumbers.MaxOfBound | frontend/src/components/Dashboard.js:164-170 | no parsed number exceeds the loop's maximum |
| PlayerNumbers.MaxOfAttained | frontend/src/components/Dashboard.js:164-170 | the maximum is 0 or one of the parsed numbers |
| PlayerNumbers.MaxNumber | frontend/src/components/Dashboard.js:164-170 | `maxNumber` is never negative |
| PlayerNumbers.MaxNumberIsMax | frontend/src/components/BatchCreate.js:51-58 | `maxNumber` is at least every player number that parses, and is 0 or one of them |
| PlayerNumbers.ComputeNextNumber | frontend/src/components/Dashboard.js:164-173 | the loop over the players leaves `(maxNumber + 1).toString()` |
| PlayerNumbers.NextNumberAbove | frontend/src/components/Dashboard.js:172 | the proposal parses to one more than the largest parseable number |
| PlayerNumbers.NextNumberUnused | frontend/src/components/BatchCreate.js:45-62 | the proposal equals no existing player's number |
| PlayerNumbers.NextNumberWhenNoneParse | frontend/src/components/Dashboard.js:164-173 | with no parseable number, the proposal is "1" |
| PlayerNumbers.IncrementedOfNumber | frontend/src/components/BatchCreate.js:122-123 | incrementing the text of n gives the text of n+1 |
| PlayerNumbers.IncrementedOfEmpty | frontend/src/components/BatchCreate.js:122-123 | incrementing an empty field gives "NaN" |
| Creation.AddOutcomeOf | frontend/src/components/Dashboard.js:273-288 | the outcome is "created" iff the POST succeeded, "unreachable" iff it failed for the network, and never "incomplete" |
| Creation.NewTeamBody | frontend/src/components/Dashboard.js:265-271 | a team's body has the name, the two flags and both counters at 0 |
| Creation.NewPlayerBody | frontend/src/components/Dashboard.js:297-308 | a player's body has the row's fields and all three counters at 0 |
| Creation.NewGameBody | frontend/src/components/GameSettings.js:163-172 | a game's body has the eight fields, with play count 0 |
| Creation.TeamCreation | frontend/src/components/BatchCreate.js:68-95 | a team is created iff the request gets through and the name does not strip to nothing under `str.strip()`, else a 400; it gets a fresh id, the stripped name, both counters 0 and the chosen flags, and the backend stays well formed |
| Creation.PlayerCreation | frontend/src/components/Dashboard.js:292-334 | a player is created iff the request gets through, the name and number do not strip to nothing and the team choice is valid; it is stored with the stripped name and number, the other fields of the row and zero counters |
| Creation.PlayerBodyOfRow | frontend/src/components/BatchCreate.js:100-111 | the server accepts a player body iff the name and number do not strip to nothing and the team choice is empty or an existing team |
| Creation.MergePlayerRow | frontend/src/components/BatchCreate.js:100-111 | the stored player has the stripped name and number, the chosen team, the flags and zero counters |
| Creation.PlayerRowFields | frontend/src/components/Dashboard.js:297-308 | the name and number the server reads from the body are the row's, stripped, and the team is the row's choice |
| Creation.GameCreation | frontend/src/components/BatchCreate.js:139-173 | a game is created iff the request gets through, the three texts do not strip to nothing and the numbers convert; it holds the stripped texts |
| Creation.MergeGameRow | frontend/src/components/BatchCreate.js:141-150 | the stored game holds the stripped texts, the numbers, the flags and play count 0 |
| Creation.GameBodyOfRow | frontend/src/components/GameSettings.js:163-172 | the server accepts a game body iff the three texts do not strip to nothing and both numbers are integers |
| Dashboard.FetchedPlayersAscending | frontend/src/components/Dashboard.js:137-146 | the fetched players are a permutation in ascending order of their parsed numbers |
| Dashboard.TeamEdit | frontend/src/components/Dashboard.js:176-180 | the PATCH body names only the edited field; a numeric field is sent through `Number()`, any other as entered |
| Dashboard.PlayerEdit | frontend/src/components/Dashboard.js:199-203 | the same for the player fields |
| Dashboard.EditTeamScore | frontend/src/components/Dashboard.js:176-196 | a score cell edit of an existing team stores the number typed, or is refused with a 400 when the text is not a number |
| Dashboard.ClearPayloads | frontend/src/components/Dashboard.js:238-257 | each clear button sends exactly its field set to 0 |
| Dashboard.EditTeamName | frontend/src/components/Dashboard.js:176-196 | a name is sent as typed; the server stores it stripped, and refuses with a 400 one that strips to nothing, leaving the team as it was |
| Dashboard.Table.constructor | frontend/src/components/Dashboard.js:84-103 | empty lists and creation rows, with the number proposal "1" |
| Dashboard.Table.ProposeNumber | frontend/src/components/Dashboard.js:164-173 | the creation row's number becomes the next number for the players held |
| Dashboard.Table.FetchTeams | frontend/src/components/Dashboard.js:125-134 | a fetched team list is held sorted by descending score; a failed fetch keeps the list |
| Dashboard.Table.FetchPlayers | frontend/src/components/Dashboard.js:137-146 | the fetched players are held by ascending number and the number proposal follows; a failed fetch changes nothing |
| Dashboard.Table.UpdateTeam | frontend/src/components/Dashboard.js:176-196 | the backend takes exactly the one-field PATCH; on success the answer replaces the team with that id, otherwise the list is kept |
| Dashboard.Table.UpdatePlayer | frontend/src/components/Dashboard.js:199-219 | the same for players, and the number proposal follows the new list |
| Dashboard.Table.DeletePlayer | frontend/src/components/Dashboard.js:222-235 | without confirmation nothing is sent; otherwise exactly the DELETE, and on success the player leaves the list |
| Dashboard.Table.ClearTeamField | frontend/src/components/Dashboard.js:238-247 | after confirmation, a PATCH setting the field to 0, whose answer replaces the team |
| Dashboard.Table.ClearPlayerField | frontend/src/components/Dashboard.js:248-257 | the same for a player's score or chips |
| Dashboard.Table.AddTeam | frontend/src/components/Dashboard.js:260-289 | a blank name is refused before any request; otherwise exactly the POST, and the row is cleared iff the team was created |
| Dashboard.Table.AddPlayer | frontend/src/components/Dashboard.js:292-334 | a blank name or number, or no team, is refused before any request; otherwise exactly the POST, and the row is cleared iff the player was created |
| BatchCreate.BatchForm.constructor | frontend/src/components/BatchCreate.js:9-33 | every tab starts empty; the game is shown, not limited, and its numbers are 0 |
| BatchCreate.BatchForm.ReceiveTeams | frontend/src/components/BatchCreate.js:36-44 | the team select takes the fetched list; a failure keeps it |
| BatchCreate.BatchForm.ReceivePlayers | frontend/src/components/BatchCreate.js:45-62 | the fetched players are kept and the number field proposes the next number; a failure changes neither |
| BatchCreate.BatchForm.SubmitTeam | frontend/src/components/BatchCreate.js:68-95 | exactly the POST of the tab as typed, with no client-side check; the tab is cleared iff the team was created |
| BatchCreate.BatchForm.SubmitPlayer | frontend/src/components/BatchCreate.js:98-136 | exactly the POST of the tab; once the player is created the tab is cleared except that the number counts up by one, otherwise it is kept |
| BatchCreate.BatchForm.ResetPlayerTab | frontend/src/components/BatchCreate.js:120-128 | the resets leave an empty player tab with the given number |
| BatchCreate.BatchForm.SubmitGame | frontend/src/components/BatchCreate.js:139-173 | exactly the POST of the tab with its numbers through `Number()`; the tab is reset iff the game was created |
| BatchCreate.BatchForm.ResetGameTab | frontend/src/components/BatchCreate.js:159-165 | the resets restore the tab's initial values |
| BatchCreate.BlankTeamNameRefused | frontend/src/components/BatchCreate.js:68-95 | the tab sends its name unchecked: one that strips to nothing reaches the server and is refused there with a 400 |
| BatchCreate.ByteOrderMarkNameCreated | frontend/src/components/BatchCreate.js:68-95 | a lone U+FEFF, blank to `trim`, is sent unchecked and creates a team of that name |
| BatchCreate.ProposalAfterCreation | frontend/src/components/BatchCreate.js:122-123 | after one creation from the proposal, the field reads as max+2 and still equals no existing number |
| GameSettings.AddGameCreates | frontend/src/components/GameSettings.js:156-199 | a row that passes the client check and gets through creates a game iff the chips text is a number and no text strips to nothing (the check uses `trim`, the server `str.strip()`); the game holds the stripped texts and starts hidden, unlimited and unplayed |
| GameSettings.AddedGameNotListed | frontend/src/api/gameService.js:7-9 | a game added here is not in the public catalogue until it is displayed |
| GameSettings.CellBody | frontend/src/components/GameSettings.js:253-299 | a cell's body names only its column's field: a numeric column sends the number its text reads as, or NaN when it reads as none; a text column sends the text as typed |
| GameSettings.CellEdit | frontend/src/components/GameSettings.js:253-299 | an edit is accepted iff its text converts (a number for a numeric column, a text that does not strip to nothing otherwise); an accepted edit sets only that field, a text to its stripped form |
| GameSettings.SwitchBody | frontend/src/components/GameSettings.js:148-153 | a switch's body names only its flag |
| GameSettings.SwitchEdit | frontend/src/components/GameSettings.js:148-153 | a switch edit is always accepted and sets only its own flag |
| GameSettings.DisplaySwitchListing | frontend/src/components/GameSettings.js:148-153 | turning the display switch on lists the game in the catalogue, turning it off removes it |
| GameSettings.ClearPlayCountZero | frontend/src/components/GameSettings.js:119-137 | clearing an existing game's play count sets it to 0 and keeps every other field |
| GameSettings.Page.constructor | frontend/src/components/GameSettings.js:52-66 | no games, no popup, an empty add row |
| GameSettings.Page.FetchGames | frontend/src/components/GameSettings.js:69-77 | a fetched list replaces the games; a failure keeps them |
| GameSettings.Page.UpdateGame | frontend/src/components/GameSettings.js:84-99 | exactly the PATCH; the list is re-fetched only on success |
| GameSettings.Page.SaveCell | frontend/src/components/GameSettings.js:253-299 | a cell save is exactly the PATCH of `CellBody`, then a re-fetch on success |
| GameSettings.Page.HandleSwitchChange | frontend/src/components/GameSettings.js:140-153 | exactly the switch PATCH; the popup opens iff the limited switch was turned on, and shows that game's name and limit |
| GameSettings.Page.DeleteGame | frontend/src/components/GameSettings.js:102-116 | without confirmation nothing is sent; otherwise exactly the DELETE, then a re-fetch on success |
| GameSettings.Page.ClearPlayCount | frontend/src/components/GameSettings.js:119-137 | after confirmation, the PATCH `{play_count: 0}`, then a re-fetch on success |
| GameSettings.Page.AddGame | frontend/src/components/GameSettings.js:156-199 | an incomplete row is refused before any request; otherwise exactly the POST; the row is reset and the list re-fetched iff the game was created |
| GameService.DisplayedIsTruthy | frontend/src/api/gameService.js:7-9 | the three-way test is plain truthiness |
| GameService.FetchGames | frontend/src/api/gameService.js:3-14 | a failed request is passed on (rethrown); an answer always gives a list |
| GameService.FetchGamesSpec | frontend/src/api/gameService.js:7-9 | the catalogue holds exactly the displayed games of the answer, in order |
| GameService.AllDisplayed | frontend/src/api/gameService.js:7-9 | a catalogue whose games are all displayed comes back whole |
| MemberList.ToggleBody | frontend/src/components/MemberList.js:7 | the body names only the switched flag; what it does to the stored player is `MemberList.MergeToggle` |
| MemberList.MergeToggle | frontend/src/components/MemberList.js:7 | a toggle body is always valid and changes only that flag of the stored player |
| MemberList.ToggleReaches | frontend/src/components/MemberList.js:5-12 | a toggle that gets through sets the flag on the server, and the answer replaces that member in the list |
| MemberList.ToggleFails | frontend/src/components/MemberList.js:9-11 | a failed toggle leaves the list, and the stored players, as they were |
| MemberList.ToggleKeepsIds | frontend/src/components/MemberList.js:8 | the members keep their ids and order whatever the answer |
| AttackForm.Roster | frontend/src/components/AttackForm.js:13-24 | no team selected gives no attackers; otherwise exactly the players whose team, looked up by id, has the selected name up to white space |
| AttackForm.RosterKeepsOrder | frontend/src/components/AttackForm.js:15-18 | the roster keeps the order of the player list |
| AttackForm.AttackerChoices | frontend/src/components/AttackForm.js:91-92 | the attacker dropdown offers exactly the teams not named like the target |
| AttackForm.PositiveCount | frontend/src/components/AttackForm.js:35-39 | a count is accepted iff `Number()` makes it a positive integer |
| AttackForm.PlayerWithNumberSpec | frontend/src/components/AttackForm.js:45 | the first roster player whose trimmed number matches, or none iff no player matches |
| AttackForm.TeamNamedSpec | frontend/src/components/AttackForm.js:50 | the first team with exactly that name, or none iff no team has it |
| AttackForm.AttackValidation | frontend/src/components/AttackForm.js:27-39 | each rejection holds iff its check is the first to fail (missing field, same team, invalid count); a rejected attack sends nothing |
| AttackForm.StrikeNeverRejects | frontend/src/components/AttackForm.js:40-75 | once the checks pass, the outcome is never a rejection and the log is extended, starting with the target's update |
| AttackForm.StrikePlayerExtends | frontend/src/components/AttackForm.js:45-56 | the later steps only extend the log |
| AttackForm.StrikeTeamExtends | frontend/src/components/AttackForm.js:50-56 | the last step only extends the log |
| AttackForm.AttackFirstRequest | frontend/src/components/AttackForm.js:42-43 | an attack that passes sends the target's new attack count first |
| AttackForm.AttackPartialCommit | frontend/src/components/AttackForm.js:45-56 | with no matching attacker, the target's update is kept, no player changes and the error is raised after one applied update |
| AttackForm.StrikeTeamSubmits | frontend/src/components/AttackForm.js:50-53 | the team step succeeds when the team exists and the request gets through |
| AttackForm.StrikePlayerSubmits | frontend/src/components/AttackForm.js:45-53 | the player and team steps succeed when both records exist and both requests get through |
| AttackForm.AttackSuccess | frontend/src/components/AttackForm.js:26-75 | when all three requests get through, exactly the three one-field PATCHes are sent in order and the target, player and team hold the cached values plus count times their multipliers |
| AttackForm.AttackScenario | frontend/src/components/AttackForm.js:26-75 | a worked attack: count 3 with multipliers 2/1/1 gives the listed new values and requests |
| AttackForm.Form.constructor | frontend/src/components/AttackForm.js:8-11 | an empty form with count 1 and no attackers |
| AttackForm.Form.RefreshRoster | frontend/src/components/AttackForm.js:13-24 | the roster is recomputed and the chosen number cleared |
| AttackForm.Form.SelectAttackerTeam | frontend/src/components/AttackForm.js:13-24 | choosing a team sets the roster to that team's players and clears the number |
| AttackForm.Form.ReceiveLists | frontend/src/components/AttackForm.js:13-24 | new lists recompute the roster |
| AttackForm.Form.SelectAttackerNumber | frontend/src/components/AttackForm.js:9 | sets the chosen number |
| AttackForm.Form.EnterAttackCount | frontend/src/components/AttackForm.js:10 | the count holds `Number()` of the input |
| AttackForm.Form.HandleAttack | frontend/src/components/AttackForm.js:26-75 | the backend and outcome are exactly `AttackSpec`; the form is reset iff the attack was submitted, otherwise it keeps what was entered |
| AttackForm.Form.SendAttack | frontend/src/components/AttackForm.js:40-56 | exactly `Strike` |
| AttackForm.Form.SendPlayerBonus | frontend/src/components/AttackForm.js:45-56 | exactly `StrikePlayer` |
| AttackForm.Form.SendTeamBonus | frontend/src/components/AttackForm.js:50-56 | exactly `StrikeTeam` |
| GameScore.TeamPlayers | frontend/src/components/GameScore.js:63-82 | no team selected gives none; otherwise exactly the players whose team name (embedded or looked up) equals the selection, ignoring white space and case |
| GameScore.TeamPlayersKeepOrder | frontend/src/components/GameScore.js:65-76 | the filtered list keeps the order of the players |
| GameScore.EmbeddedTeamMatches | frontend/src/components/GameScore.js:67-68 | a player with an embedded team object is matched by that object's name |
| GameScore.PlayerWithIdTextSpec | frontend/src/components/GameScore.js:91 | the first filtered player whose id's text is the selection, or none iff none matches |
| GameScore.ScoreValidation | frontend/src/components/GameScore.js:86-95 | "incomplete" iff a selection or the game is missing; "unknown player" iff the selected player is not in the filtered list; both send nothing and change nothing |
| GameScore.ChipsFailureLeavesGame | frontend/src/components/GameScore.js:123-129 | a failed chips PATCH sends no play-count request and keeps the game and the players |
| GameScore.ChipsOk | frontend/src/components/GameScore.js:97-104 | a chips PATCH that gets through stores the new chips |
| GameScore.PlayCountOk | frontend/src/components/GameScore.js:105-112 | a play-count PATCH that gets through stores the new count |
| GameScore.ScorePlayCountOk | frontend/src/components/GameScore.js:105-122 | a play-count step that gets through stores count+1, replaces the cached game and the scored player |
| GameScore.ScoreChipsOk | frontend/src/components/GameScore.js:97-122 | a chips step that gets through continues with the play-count step on the updated server |
| GameScore.ScoreSuccess | frontend/src/components/GameScore.js:85-130 | when both requests get through, the player's chips become cached chips plus the game's chips, the game's play count goes up by one, and exactly these two PATCHes are sent |
| GameScore.ScoredListChange | frontend/src/components/GameScore.js:121-122 | a successful score changes only the scored player in the local list |
| GameScore.Page.constructor | frontend/src/components/GameScore.js:11-18 | nothing loaded or selected |
| GameScore.Page.Refilter | frontend/src/components/GameScore.js:63-82 | the filtered list is recomputed and the player selection cleared |
| GameScore.Page.ReceiveGame | frontend/src/components/GameScore.js:21-60 | a fetched game is held; a failure keeps the old one |
| GameScore.Page.ReceiveTeams | frontend/src/components/GameScore.js:21-60 | fetched teams are held and the filter re-runs; a failure changes nothing |
| GameScore.Page.ReceivePlayers | frontend/src/components/GameScore.js:21-60 | fetched players are held and the filter re-runs; a failure changes nothing |
| GameScore.Page.SelectTeam | frontend/src/components/GameScore.js:63-82 | selecting a team filters the players and clears the player selection |
| GameScore.Page.SelectPlayer | frontend/src/components/GameScore.js:91 | sets the selected player |
| GameScore.Page.HandleScore | frontend/src/components/GameScore.js:85-130 | the backend, the outcome, the cached players and the game are exactly `ScoreSpec` of the old state |
| GameScore.Page.SendChips | frontend/src/components/GameScore.js:97-129 | exactly `ScoreChips` |
| GameScore.Page.SendPlayCount | frontend/src/components/GameScore.js:105-122 | exactly `ScorePlayCount` |
| RankingDashboard.TopOfSorted | frontend/src/components/RankingDashboard.js:93-98 | a prefix of a descending list is descending, drawn from it, and no entry left out ranks above an entry shown |
| RankingDashboard.BoardSizes | frontend/src/components/RankingDashboard.js:91-101 | a count N shows min(N, size) entries on every board |
| RankingDashboard.TeamsByAttackedIsTop | frontend/src/components/RankingDashboard.js:94 | the attack board is the top of the teams by attack count: descending, drawn from the teams, and above every team left out |
| RankingDashboard.PlayersByMiniGameIsTop | frontend/src/components/RankingDashboard.js:96-98 | the same for the players by completed mini-games |
| RankingDashboard.MaxValueSpec | frontend/src/components/RankingDashboard.js:83-86 | `Math.max(...xs, 1)` is at least 1 and every value, and is 1 or one of the values |
| RankingDashboard.MaxValuesBound | frontend/src/components/RankingDashboard.js:81-89 | no bar exceeds its board's denominator, and no denominator is 0 |
| RankingDashboard.TeamLabelSpec | frontend/src/components/RankingDashboard.js:105-106 | a team label is "---" iff the name is hidden (or is "---"); otherwise it is the name |
| RankingDashboard.PlayerLabelSpec | frontend/src/components/RankingDashboard.js:107-111 | a player label is "team-name" when both parts show, the one part that shows, or "---" |
| RankingDashboard.FullyHiddenPlayer | frontend/src/components/RankingDashboard.js:107-111 | a player hiding both name and team is shown as "---" |
| RankingDashboard.Board.constructor | frontend/src/components/RankingDashboard.js:34-49 | empty lists, counts 6 and every board shown |
| RankingDashboard.Board.ReceiveData | frontend/src/components/RankingDashboard.js:51-73 | a poll holds the teams by score and the players by personal score, and the previous lists; a failed poll changes nothing |
| RankingDashboard.Board.ReceiveTeams | frontend/src/components/RankingDashboard.js:59-63 | the teams are held sorted by score; the previous list is remembered; the version changes only when the list did |
| RankingDashboard.Board.ReceivePlayers | frontend/src/components/RankingDashboard.js:65-69 | the same for the players |
| RankingDashboard.Board.SetTopCount | frontend/src/components/RankingDashboard.js:258 | only that board's count changes, to `Number()` of the input |
| RankingDashboard.Board.SetHidden | frontend/src/components/RankingDashboard.js:274 | only that board's hide flag changes |
| RankingDashboard.PollTwice | frontend/src/components/RankingDashboard.js:62 | polling an unchanged backend twice replaces the lists at most once |
| RankingDashboard.ScoreBoardsAreTop | frontend/src/components/RankingDashboard.js:93-95 | the score boards are the top entries by score |
| TeamRankingBarChart.MaxScoreSpec | frontend/src/components/TeamRankingBarChart.js:39 | the denominator is at least 1 and every score; it is the top score when one is positive, otherwise 1 |
| TeamRankingBarChart.Bars | frontend/src/components/TeamRankingBarChart.js:54-77 | one bar per team, in list order |
| TeamRankingBarChart.Renumbered | frontend/src/components/TeamRankingBarChart.js:54-77 | the bars of the rest of the list are one rank lower |
| TeamRankingBarChart.BarsRanked | frontend/src/components/TeamRankingBarChart.js:54-77 | the ranks are 1 to n in order, and in a chart sorted by score a better rank never has a lower score |
| TeamRankingBarChart.Chart.constructor | frontend/src/components/TeamRankingBarChart.js:16 | no teams |
| TeamRankingBarChart.Chart.FetchTeams | frontend/src/components/TeamRankingBarChart.js:19-31 | a poll holds the teams sorted by descending score; a failure keeps them |
| TeamDashboard.AttackTeams | frontend/src/components/TeamDashboard.js:59-66 | each team is updated by the attack rule, position by position |
| TeamDashboard.AttackPlayers | frontend/src/components/TeamDashboard.js:68-76 | each player is updated by the attack rule, position by position |
| TeamDashboard.AttackTeamsTotals | frontend/src/components/TeamDashboard.js:59-66 | the total score grows by 2 per team numbered as the attacker; the total attack count by 1 per team numbered as the target |
| TeamDashboard.AttackPlayersTotal | frontend/src/components/TeamDashboard.js:68-76 | the total personal score grows by 1 per matching player |
| TeamDashboard.NoNumberNoTeamChanges | frontend/src/components/TeamDashboard.js:59-66 | with teams that carry no `number`, as the backend's do, the attack changes no team |
| TeamDashboard.SortedTeamsSpec | frontend/src/components/TeamDashboard.js:84-89 | the cards are a permutation of the teams, descending by the chosen field, or in fetch order without a choice |
| TeamDashboard.MembersSpec | frontend/src/components/TeamDashboard.js:200-201 | a card lists exactly the players whose team text equals the team's number text, in order |
| TeamDashboard.Panel.constructor | frontend/src/components/TeamDashboard.js:10-19 | an empty panel, without sorting |
| TeamDashboard.Panel.FetchTeams | frontend/src/components/TeamDashboard.js:27-35 | a fetched list replaces the teams; a failure keeps them |
| TeamDashboard.Panel.FetchPlayers | frontend/src/components/TeamDashboard.js:37-45 | a fetched list replaces the players; a failure keeps them |
| TeamDashboard.Panel.HandleAttack | frontend/src/components/TeamDashboard.js:48-81 | "missing input" iff a field is empty; "same team" iff the teams are equal; otherwise the teams and players are the attack's maps, and a refusal changes nothing |
| TeamDashboard.Panel.SortedCards | frontend/src/components/TeamDashboard.js:84-89 | the in-place sort of a copy gives `SortedTeams` |
| TeamDashboard.LocalAttackScenario | frontend/src/components/TeamDashboard.js:48-81 | for two distinct teams, the attacker's team gains 2 points, the target 1 attack, and the attacking player 1 point |
| MainMenu.FirstPassword | frontend/src/components/MainMenu.js:44-52 | the password is the first setting's `login_password`, or "" when it has none |
| MainMenu.TypedSpaceIgnored | frontend/src/components/MainMenu.js:85 | white space around the typed password never decides the login |
| MainMenu.ExpectedSpaceIgnored | frontend/src/components/MainMenu.js:85 | nor does white space around the stored password |
| MainMenu.EmptyPasswordAcceptsBlank | frontend/src/components/MainMenu.js:47 | with no password set, exactly the blank inputs are accepted |
| MainMenu.Page.View | frontend/src/components/MainMenu.js:101-167 | the spinner shows iff loading or fetching the password; the menu shows iff neither and logged in; otherwise the login form |
| MainMenu.Page.constructor | frontend/src/components/MainMenu.js:26-32 | logged in iff local storage says "true"; everything else starts loading and empty |
| MainMenu.Page.ReceiveSettings | frontend/src/components/MainMenu.js:35-59 | the password spinner always ends; the password is taken only from a non-empty list |
| MainMenu.Page.LoggedInChanged | frontend/src/components/MainMenu.js:62-77 | loading always ends; the teams are taken only when logged in and fetched |
| MainMenu.Page.SetPassword | frontend/src/components/MainMenu.js:29 | sets the typed password |
| MainMenu.Page.HandleLogin | frontend/src/components/MainMenu.js:80-93 | a match stores the flag, logs in and clears the error; a mismatch keeps the login state and shows the error |
| MainMenu.Page.Submit | frontend/src/components/MainMenu.js:118-151 | an empty required field submits nothing; otherwise as `HandleLogin` |
| MainMenu.Page.HandleLogout | frontend/src/components/MainMenu.js:96-99 | the stored flag is removed and the page logs out |
| MainMenu.ReloadAfterLogin | frontend/src/components/MainMenu.js:28 | a successful login survives a reload of the page |
| MainMenu.ReloadAfterLogout | frontend/src/components/MainMenu.js:96-99 | a logout survives a reload of the page |
| MainMenu.SettleAfterMount | frontend/src/components/MainMenu.js:26-77 | once mounted, a page logged in by its flag shows the menu; a logged-out one shows the login form with no teams |

## Left out

- Polling intervals, timers and races between overlapping requests are not modelled. Each answer is applied as one atomic step, and the previous-index animation of the leaderboards is not modelled either.
- HTTP details are not modelled: headers, JSON encoding and `res.json()` failures. A failed read counts as a failed request. `apiService.updateData` is folded into the step functions, which report a non-2xx status as a failure.
- Nothing is rendered: layout, animation, the bar widths as floating-point percentages, and the popup's 5-second timer. The popup opening is modelled; closing it is not.
- Alerts and `window.confirm` dialogs are outcomes and inputs, not UI.
- The data of a re-fetch after a mutation is an input; the GET itself is not modelled.
- `Text.ToLower`: only ASCII letters are folded. Unicode case mapping is not modelled.
- `Text.ParseInt`: accepts only a whole string of digits with an optional sign. JavaScript's `parseInt` also reads a numeric prefix ("12abc" is 12) and a hexadecimal prefix ("0x10" is 16); the model gives NaN for both.
- `Records.ToNum`: non-integer and exponent forms of `Number()` become NaN. Fractional counts and fractional `slice` ends are not modelled.
- `Text.ToNumber`, `Records.ToNum`: the radix literals `Number()` reads ("0x10" is 16, "0b11" is 3, "0o7" is 7) become NaN in the model.
- `Dashboard.FetchedPlayersAscending`: a NaN comparator result is modelled as the key 0. The engine-specific order that JavaScript gives NaN comparisons is not modelled.
- Backend validation is abstracted to three rules: a wrong JSON type for a known field is a 400, unknown keys are ignored, and a missing id is a 404.
- `unique` constraints and `max_length` limits are not modelled, nor are Django REST framework coercions beyond stripping `CharField` input with `str.strip()` and refusing what strips to nothing.
- Integers are unbounded. JavaScript's 2^53 precision limit and the database's integer width are not modelled.
- The common settings are read-only inputs. Their update through `Dashboard.updateCommonSetting`, the select cell (`EditableSelectCell`), and the settings' top-N and hide fields are not modelled, since no modelled screen reads them.
- `EditPlayer` and `EditTeam` are not modelled. They are thin forms over the same PATCH steps.
- The composition components are not modelled: `App`, `TeamPanel`, `TeamInfo`, `GameAll`, `GameCard`. The proxy configuration files (`setUpProxy.js`) and the unused `forms.py` are not modelled either.
- `MainMenu`: `navigate` to other pages and the static menu cards are not modelled. The password check is modelled, not its security.
- `GameSettings`: the constant fields of the `newGame` row are written into `AddGameBody` rather than kept as state. Those fields are `play_count`, `is_displayed`, `is_limited` and `limited_time`.
- `TeamRankingBarChart.Bars`: the rank label's `team.number` is not shown, since backend teams have none. Only the rank and the team are modelled.
- `Sorting.InsertDesc`, `Sorting.SortDesc`: their own contracts state only the length. Sortedness, permutation and stability are lemmas about them, to keep the proofs that use them small.
