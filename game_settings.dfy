/** The mini-game settings page (`GameSettings`): the game list with inline
    editors, two switches, delete and "clear play count" buttons, and a row
    for adding a game. Every change that the backend accepts is followed by
    a re-fetch of the list. Turning a game's time limit on also shows a
    popup with its name and limit. */
module GameSettings {
  import opened Wrappers
  import opened Text
  import opened Records
  import opened Server
  import opened Creation
  import opened GameService

  // ---- The add row ----

  /** The editable fields of the add row. Its other fields (`play_count`,
      `is_displayed`, `is_limited`, `limited_time`) only ever hold their
      initial values, and the body does not read them. */
  datatype NewGameRow = NewGameRow(category: string, room: string, name: string, available_chips: string)

  const EmptyGameRow := NewGameRow("", "", "", "")

  /** The check of `addGame`: a blank text, or no chips typed at all. */
  predicate GameRowIncomplete(row: NewGameRow) {
    Blank(row.category) || Blank(row.room) || Blank(row.name) || row.available_chips == []
  }

  /** The body of `addGame`: the texts, `Number(available_chips)`, and the
      defaults (not shown, not limited, no plays, no time). */
  function AddGameBody(row: NewGameRow): Body {
    NewGameBody(row.category, row.room, row.name, ToNum(VStr(row.available_chips)), false, false, VInt(0))
  }

  /** A row that passes the check and reaches the server creates a game
      exactly when the chips text is a number and no text strips to nothing
      (the check trims with JavaScript's white space, the server strips with
      Python's); the game starts hidden, unlimited and unplayed. */
  lemma AddGameCreates(s: ServerState, row: NewGameRow)
    requires Reaches(s) && !GameRowIncomplete(row)
    ensures var r := PostGameStep(s, AddGameBody(row));
      && (r.1.Success? <==>
            ToNumber(row.available_chips).Some?
            && !StripBlank(row.category) && !StripBlank(row.room) && !StripBlank(row.name))
      && (r.1.Success? ==>
            r.1.value == MiniGame(s.nextId, Strip(row.category), Strip(row.room), Strip(row.name),
                                  ToNumber(row.available_chips).value, 0, VBool(false), false, 0))
      && (r.1.Failure? ==> r.1 == Failure(HttpError(400)))
  {
    GameCreation(s, row.category, row.room, row.name, ToNum(VStr(row.available_chips)), false, false, VInt(0));
  }

  /** So a game added here stays out of the public catalogue until its
      display switch is turned on. */
  lemma AddedGameNotListed(s: ServerState, row: NewGameRow, games: seq<MiniGame>)
    requires PostGameStep(s, AddGameBody(row)).1.Success?
    ensures PostGameStep(s, AddGameBody(row)).1.value !in FetchGames(Success(games)).value
  {
    var g := PostGameStep(s, AddGameBody(row)).1.value;
    GameCreation(s, row.category, row.room, row.name, ToNum(VStr(row.available_chips)), false, false, VInt(0));
    assert !Displayed(g);
  }

  // ---- Inline edits and switches ----

  /** The edited columns of the game table. */
  datatype Column = CategoryColumn | RoomColumn | NameColumn | ChipsColumn | PlayCountColumn | LimitedTimeColumn

  function ColumnField(c: Column): Field {
    match c
    case CategoryColumn => Category
    case RoomColumn => Room
    case NameColumn => Name
    case ChipsColumn => AvailableChips
    case PlayCountColumn => PlayCount
    case LimitedTimeColumn => LimitedTime
  }

  predicate NumericColumn(c: Column) {
    c == ChipsColumn || c == PlayCountColumn || c == LimitedTimeColumn
  }

  /** The `onSave` body of a cell: the text as typed, through `Number()` for
      the numeric columns. */
  function CellBody(c: Column, text: string): (b: Body)
    ensures b.Keys == {ColumnField(c)}
    ensures NumericColumn(c) ==>
              match ToNumber(text)
              case Some(n) => b[ColumnField(c)] == VInt(n)
              case None => b[ColumnField(c)] == VNaN
    ensures !NumericColumn(c) ==> b[ColumnField(c)] == VStr(text)
  {
    map[ColumnField(c) := if NumericColumn(c) then ToNum(VStr(text)) else VStr(text)]
  }

  /** An edit is accepted exactly when its text converts (a number for a
      numeric column, a text that does not strip to nothing otherwise), and
      it then sets that one field of the game. */
  lemma CellEdit(g: MiniGame, c: Column, text: string)
    ensures GameBodyOk(CellBody(c, text)) <==>
              if NumericColumn(c) then ToNumber(text).Some? else !StripBlank(text)
    ensures GameBodyOk(CellBody(c, text)) ==>
              MergeGame(g, CellBody(c, text)) == match c
                case CategoryColumn => g.(category := Strip(text))
                case RoomColumn => g.(room := Strip(text))
                case NameColumn => g.(name := Strip(text))
                case ChipsColumn => g.(available_chips := ToNumber(text).value)
                case PlayCountColumn => g.(play_count := ToNumber(text).value)
                case LimitedTimeColumn => g.(limited_time := ToNumber(text).value)
  {
  }

  /** The two switches of a game row. */
  datatype Switch = DisplayedSwitch | LimitedSwitch

  function SwitchBody(sw: Switch, checked: bool): (b: Body)
    ensures b.Keys == {if sw == DisplayedSwitch then IsDisplayed else IsLimited}
  {
    if sw == DisplayedSwitch then map[IsDisplayed := VBool(checked)] else map[IsLimited := VBool(checked)]
  }

  /** A switch is always accepted and sets only its own flag. */
  lemma SwitchEdit(g: MiniGame, sw: Switch, checked: bool)
    ensures GameBodyOk(SwitchBody(sw, checked))
    ensures MergeGame(g, SwitchBody(sw, checked))
         == if sw == DisplayedSwitch then g.(is_displayed := VBool(checked)) else g.(is_limited := checked)
  {
  }

  /** Turning the display switch on puts the game in the public catalogue,
      turning it off takes it out. */
  lemma DisplaySwitchListing(g: MiniGame, checked: bool)
    ensures var h := MergeGame(g, SwitchBody(DisplayedSwitch, checked));
      Displayed(h) <==> checked
  {
    SwitchEdit(g, DisplayedSwitch, checked);
  }

  /** The popup of a time-limited game: its name and limit in seconds. */
  datatype Popup = Popup(gameName: string, seconds: int)

  /** `{play_count: 0}`. */
  const ClearPlayCountBody: Body := map[PlayCount := VInt(0)]

  /** Clearing the play count of a game that exists sets it to 0 and
      changes nothing else of the game. */
  lemma ClearPlayCountZero(s: ServerState, id: int)
    requires Reaches(s) && id in s.games
    ensures var r := PatchGameStep(s, id, ClearPlayCountBody);
      r.1 == Success(s.games[id].(play_count := 0)) && r.0.games == s.games[id := s.games[id].(play_count := 0)]
  {
    MergeGamePlayCount(s.games[id], 0);
  }

  // ---- The page ----

  class Page {
    var games: seq<MiniGame>
    var popup: Option<Popup>
    var newGame: NewGameRow

    constructor ()
      ensures games == [] && popup.None? && newGame == EmptyGameRow
    {
      games := [];
      popup := None;
      newGame := EmptyGameRow;
    }

    /** `fetchGames`: `None` when the request or reading it failed. */
    method FetchGames(data: Option<seq<MiniGame>>)
      modifies this`games
      ensures games == if data.Some? then data.value else old(games)
    {
      if data.Some? {
        games := data.value;
      }
    }

    /** `updateGame(id, fields)`: the PATCH, then a re-fetch (answered by
        `reload`) only when it succeeded. */
    method UpdateGame(server: Backend, id: int, fields: Body, reload: Option<seq<MiniGame>>)
      returns (r: Result<MiniGame, Failure>)
      modifies this`games, server
      ensures (server.State(), r) == PatchGameStep(old(server.State()), id, fields)
      ensures games == if r.Success? && reload.Some? then reload.value else old(games)
    {
      r := server.PatchGame(id, fields);
      if r.Success? {
        FetchGames(reload);
      }
    }

    /** The `onSave` of a cell of game `g`, called by the cell only when its
        text changed. */
    method SaveCell(server: Backend, g: MiniGame, c: Column, text: string, reload: Option<seq<MiniGame>>)
      returns (r: Result<MiniGame, Failure>)
      modifies this`games, server
      ensures (server.State(), r) == PatchGameStep(old(server.State()), g.id, CellBody(c, text))
      ensures games == if r.Success? && reload.Some? then reload.value else old(games)
    {
      r := UpdateGame(server, g.id, CellBody(c, text), reload);
    }

    /** `handleSwitchChange(game, field, checked)` (the display switch calls
        `updateGame` directly, which is the same without the popup): the
        PATCH of that flag, and the popup when a time limit is turned on,
        whatever the answer. */
    method HandleSwitchChange(server: Backend, g: MiniGame, sw: Switch, checked: bool, reload: Option<seq<MiniGame>>)
      returns (r: Result<MiniGame, Failure>)
      modifies this`games, this`popup, server
      ensures (server.State(), r) == PatchGameStep(old(server.State()), g.id, SwitchBody(sw, checked))
      ensures games == if r.Success? && reload.Some? then reload.value else old(games)
      ensures popup == if sw == LimitedSwitch && checked then Some(Popup(g.name, g.limited_time)) else old(popup)
    {
      r := UpdateGame(server, g.id, SwitchBody(sw, checked), reload);
      if sw == LimitedSwitch && checked {
        popup := Some(Popup(g.name, g.limited_time));
      }
    }

    /** `deleteGame`: nothing without confirmation; a deletion that
        succeeded is followed by a re-fetch. */
    method DeleteGame(server: Backend, id: int, confirmed: bool, reload: Option<seq<MiniGame>>)
      returns (r: Option<Result<(), Failure>>)
      modifies this`games, server
      ensures !confirmed ==> r.None? && server.State() == old(server.State())
      ensures confirmed ==> r.Some? && (server.State(), r.value) == DeleteGameStep(old(server.State()), id)
      ensures games == if r.Some? && r.value.Success? && reload.Some? then reload.value else old(games)
    {
      if !confirmed {
        return None;
      }
      var d := server.DeleteGame(id);
      r := Some(d);
      if d.Success? {
        FetchGames(reload);
      }
    }

    /** `clearPlayCount`: after confirmation, the PATCH `{play_count: 0}`. */
    method ClearPlayCount(server: Backend, id: int, confirmed: bool, reload: Option<seq<MiniGame>>)
      returns (r: Option<Result<MiniGame, Failure>>)
      modifies this`games, server
      ensures !confirmed ==> r.None? && server.State() == old(server.State()) && games == old(games)
      ensures confirmed ==> r.Some? && (server.State(), r.value) == PatchGameStep(old(server.State()), id, ClearPlayCountBody)
      ensures games == if r.Some? && r.value.Success? && reload.Some? then reload.value else old(games)
    {
      if !confirmed {
        return None;
      }
      var u := UpdateGame(server, id, ClearPlayCountBody, reload);
      r := Some(u);
    }

    /** `addGame`: an incomplete row is refused before any request; a game
        created resets the row and re-fetches the list. */
    method AddGame(server: Backend, reload: Option<seq<MiniGame>>) returns (outcome: AddOutcome)
      modifies this`games, this`newGame, server
      ensures GameRowIncomplete(old(newGame)) ==>
                outcome == Incomplete && server.State() == old(server.State()) && games == old(games)
      ensures !GameRowIncomplete(old(newGame)) ==>
                var step := PostGameStep(old(server.State()), AddGameBody(old(newGame)));
                server.State() == step.0 && outcome == AddOutcomeOf(step.1)
      ensures newGame == if outcome == Created then EmptyGameRow else old(newGame)
      ensures games == if outcome == Created && reload.Some? then reload.value else old(games)
    {
      if GameRowIncomplete(newGame) {
        return Incomplete;
      }
      var r := server.PostGame(AddGameBody(newGame));
      outcome := AddOutcomeOf(r);
      if r.Success? {
        newGame := EmptyGameRow;
        FetchGames(reload);
      }
    }
  }
}
