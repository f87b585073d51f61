/** The handlers of `App` that change the game: the drop gate, reset, undo,
    board flip, the engine's reply, joining a game by typed id, switching the
    play mode, and the move-history table's pairing of moves into rows. */
module Board {
  import opened Prelude
  import opened Rules
  import opened Session
  import Multiplayer

  /** The backend URL `App` configures. */
  const AppBackendUrl := "httpss://localhost:8000"

  // ---------------------------------------------------------------------------
  // The drop gate
  // ---------------------------------------------------------------------------

  /** The side a colour plays: "white" moves when the engine says `'w'`,
      "black" when it says `'b'`; any other colour, or none, plays no side. */
  function SideOf(color: Option<string>): Option<Side>
  {
    if color == Some("white") then Some(W)
    else if color == Some("black") then Some(B)
    else None
  }

  /** Who may move: anyone outside multiplayer mode; in multiplayer mode only
      a player whose colour is the side to move, and only while the game is
      "ongoing". */
  predicate Entitled(s: State, eng: Engine)
  {
    s.mode != Multiplayer
    || (s.status == "ongoing" && SideOf(s.color) == Some(eng.turn(s.game)))
  }

  /** `onDrop`'s answer to the board, the new state, and what it sends. */
  datatype DropResult = DropResult(accepted: bool, next: State, cmds: seq<Command>)

  /** `onDrop(source, target)`: check status, colour and turn in multiplayer
      mode, then ask the engine for the move with promotion to a queen. A
      legal move is applied at once and, in multiplayer mode on an open
      socket, also sent; nothing is rolled back if the send is skipped. */
  function OnDrop(s: State, eng: Engine, from: string, to: string): (r: DropResult)
    ensures r.accepted <==> Entitled(s, eng) && eng.apply(s.game, from, to, "q").Moved?
    ensures !r.accepted ==> r.next == s && r.cmds == []
    ensures r.accepted ==>
              var m := eng.apply(s.game, from, to, "q");
              && r.next.game == m.pos && r.next.fen == eng.fen(m.pos)
              && r.next.history == s.history + [m.san]
              && r.next.(game := s.game, fen := s.fen, history := s.history) == s
    ensures r.accepted && s.mode == Multiplayer && SocketOpen(s) ==>
              r.cmds == [Send(s.ws.value.id, MoveOut(from, to))]
    ensures !(s.mode == Multiplayer && SocketOpen(s)) ==> r.cmds == []
  {
    if s.status != "ongoing" && s.mode == Multiplayer then
      DropResult(false, s, [])
    else if s.mode == Multiplayer && !Truthy(s.color) then
      DropResult(false, s, [])
    else if s.mode == Multiplayer &&
            var turn := eng.turn(s.game);
            (turn == W && s.color != Some("white")) || (turn == B && s.color != Some("black"))
    then
      DropResult(false, s, [])
    else
      assert s.mode == Multiplayer ==>
        (eng.turn(s.game) == W && s.color == Some("white"))
        || (eng.turn(s.game) == B && s.color == Some("black"));
      match eng.apply(s.game, from, to, "q")
      case Moved(p, san) =>
        var cmds := if s.mode == Multiplayer && SocketOpen(s)
                    then [Send(s.ws.value.id, MoveOut(from, to))] else [];
        DropResult(true, Advance(s, eng, p, san), cmds)
      case _ => DropResult(false, s, [])
  }

  // ---------------------------------------------------------------------------
  // Reset, undo, flip, engine move
  // ---------------------------------------------------------------------------

  /** `resetGame`: a new game from the start position with an empty history
      and no status; the server is told only in multiplayer mode on an open
      socket. Colour, socket and game id are untouched. */
  function ResetGame(s: State, eng: Engine): (r: Step)
    ensures r.next.game == eng.start && r.next.fen == eng.fen(eng.start)
    ensures r.next.history == [] && r.next.status == ""
    ensures r.next.(game := s.game, fen := s.fen, history := s.history, status := s.status) == s
    ensures s.mode == Multiplayer && SocketOpen(s) ==> r.cmds == [Send(s.ws.value.id, ResetOut)]
    ensures !(s.mode == Multiplayer && SocketOpen(s)) ==> r.cmds == []
  {
    var next := s.(game := eng.start, fen := eng.fen(eng.start), history := [], status := "");
    if s.mode == Multiplayer && SocketOpen(s) then Step(next, [Send(s.ws.value.id, ResetOut)])
    else Step(next, [])
  }

  /** `prev.slice(0, -1)`: every element but the last; empty stays empty. */
  function DropLast<T>(xs: seq<T>): (r: seq<T>)
    ensures xs == [] ==> r == []
    ensures xs != [] ==> r + [xs[|xs| - 1]] == xs
  {
    if xs == [] then [] else xs[..|xs| - 1]
  }

  /** `undoMove`: the engine takes back its last move, the board shows the
      result and the history loses its last entry. */
  function UndoMove(s: State, eng: Engine): (r: State)
    ensures r.game == eng.undo(s.game) && r.fen == eng.fen(r.game)
    ensures s.history != [] ==> r.history + [s.history[|s.history| - 1]] == s.history
    ensures s.history == [] ==> r.history == []
    ensures r.(game := s.game, fen := s.fen, history := s.history) == s
  {
    var g := eng.undo(s.game);
    s.(game := g, fen := eng.fen(g), history := DropLast(s.history))
  }

  /** The Undo button: disabled, so doing nothing, while the history is
      empty. */
  function UndoButton(s: State, eng: Engine): (r: State)
    ensures s.history == [] ==> r == s
    ensures s.history != [] ==> r == UndoMove(s, eng)
  {
    if s.history == [] then s else UndoMove(s, eng)
  }

  /** `flipBoard`: "white" becomes "black", anything else becomes "white". */
  function Flip(orientation: string): (r: string)
    ensures r == "white" || r == "black"
    ensures r == "white" <==> orientation != "white"
  {
    if orientation == "white" then "black" else "white"
  }

  /** The Flip Board button: only the orientation changes. */
  function FlipBoard(s: State): (r: State)
    ensures r.orientation == "black" <==> s.orientation == "white"
    ensures r.orientation == "white" || r.orientation == "black"
    ensures r.(orientation := s.orientation) == s
  {
    s.(orientation := Flip(s.orientation))
  }

  /** The engine's reply to `makeEngineMove` arrives: its move, in the
      notation the engine server returns, is applied to the current
      position; a move the rules engine rejects or throws on changes
      nothing. */
  function EngineMoveArrived(s: State, eng: Engine, best: string): (r: State)
    ensures eng.applyText(s.game, best).Moved? ==>
              var m := eng.applyText(s.game, best);
              r.game == m.pos && r.fen == eng.fen(m.pos) && r.history == s.history + [m.san]
    ensures !eng.applyText(s.game, best).Moved? ==> r == s
    ensures r.(game := s.game, fen := s.fen, history := s.history) == s
  {
    match eng.applyText(s.game, best)
    case Moved(p, san) => Advance(s, eng, p, san)
    case _ => s
  }

  // ---------------------------------------------------------------------------
  // Choosing the mode and the game
  // ---------------------------------------------------------------------------

  /** The Join button: a non-blank typed id, trimmed, becomes the selected
      game and the input box is cleared; a blank one changes nothing. */
  function JoinTyped(s: State): (r: State)
    ensures AllSpace(s.gameIdInput) ==> r == s
    ensures !AllSpace(s.gameIdInput) ==>
              && r == s.(gameId := Trim(s.gameIdInput), gameIdInput := "")
              && r.gameId != ""
              && !IsJsSpace(r.gameId[0]) && !IsJsSpace(r.gameId[|r.gameId| - 1])
  {
    var id := Trim(s.gameIdInput);
    if id != "" then s.(gameId := id, gameIdInput := "") else s
  }

  /** The Join button together with the effect rerun it causes when the
      selected game changed: a non-blank typed id, trimmed, is selected and
      the box cleared; in multiplayer mode a different game is joined after
      the old session is released; the same game, or a blank box, rejoins
      nothing. */
  function JoinButton(s: State, eng: Engine, backend: string, uuid: string): (r: Step)
    ensures AllSpace(s.gameIdInput) ==> r == Step(s, [])
    ensures !AllSpace(s.gameIdInput) ==>
              r.next.gameId == Trim(s.gameIdInput) && r.next.gameIdInput == ""
    ensures !AllSpace(s.gameIdInput) && Trim(s.gameIdInput) == s.gameId ==>
              r == Step(s.(gameIdInput := ""), [])
    ensures !AllSpace(s.gameIdInput) && Trim(s.gameIdInput) != s.gameId && s.mode == Multiplayer ==>
              var id := Trim(s.gameIdInput);
              && FetchSnapshot(Multiplayer.SnapshotUrl(backend, id)) in r.cmds
              && OpenSocket(s.nextSocket, Multiplayer.SocketUrl(backend, id,
                                            Multiplayer.ChooseClientId(s.clientId, uuid).id)) in r.cmds
              && (s.ws.Some? && Live(s.ws.value.ready) ==> CloseSocket(s.ws.value.id) in r.cmds)
              && (StopPoll in r.cmds <==> s.polling)
              && TeardownFirst(r.cmds)
  {
    JoinSwitches(s, eng, backend, uuid);
    Multiplayer.Commit(s, JoinTyped(s), eng, backend, uuid)
  }

  /** Joining a different game by typed id in multiplayer mode releases the
      old session and joins the new game. */
  lemma JoinSwitches(s: State, eng: Engine, backend: string, uuid: string)
    ensures !AllSpace(s.gameIdInput) && Trim(s.gameIdInput) != s.gameId && s.mode == Multiplayer ==>
            var r := Multiplayer.Commit(s, JoinTyped(s), eng, backend, uuid);
            var id := Trim(s.gameIdInput);
            && FetchSnapshot(Multiplayer.SnapshotUrl(backend, id)) in r.cmds
            && OpenSocket(s.nextSocket, Multiplayer.SocketUrl(backend, id,
                                          Multiplayer.ChooseClientId(s.clientId, uuid).id)) in r.cmds
            && (s.ws.Some? && Live(s.ws.value.ready) ==> CloseSocket(s.ws.value.id) in r.cmds)
            && (StopPoll in r.cmds <==> s.polling)
            && TeardownFirst(r.cmds)
  {
    if !AllSpace(s.gameIdInput) && Trim(s.gameIdInput) != s.gameId && s.mode == Multiplayer {
      var t := JoinTyped(s);
      assert t == s.(gameId := Trim(s.gameIdInput), gameIdInput := "");
      assert t.gameId != "";
    }
  }


  /** The play-mode selector together with the effect rerun it causes.
      Leaving multiplayer mode drops the session; entering it polls the
      game list when no game is selected and joins the selected game
      otherwise. */
  function ChooseMode(s: State, mode: Mode, eng: Engine, backend: string, uuid: string): (r: Step)
    ensures mode == s.mode ==> r == Step(s, [])
    ensures r.next.mode == mode
    ensures mode != s.mode && mode != Multiplayer ==>
              && r.next.ws.None? && r.next.color.None? && r.next.games == []
              && r.next.status == "" && r.next.history == []
              && r.next.game == s.game && r.next.fen == eng.fen(s.game)
              && !r.next.polling && !OpensSocket(r.cmds)
    ensures mode == Multiplayer && s.mode != Multiplayer ==>
              && (r.next.polling <==> s.gameId == "")
              && (s.gameId == "" ==>
                    FetchGames(Multiplayer.GamesUrl(backend)) in r.cmds && StartPoll in r.cmds)
              && (s.gameId != "" ==>
                    OpenSocket(s.nextSocket, Multiplayer.SocketUrl(backend, s.gameId,
                                               Multiplayer.ChooseClientId(s.clientId, uuid).id)) in r.cmds)
  {
    Multiplayer.Commit(s, s.(mode := mode), eng, backend, uuid)
  }

  // ---------------------------------------------------------------------------
  // Move history table
  // ---------------------------------------------------------------------------

  /** One step of the history `reduce`: a move at an even index opens a new
      row, a move at an odd index completes the last row. */
  function PairStep(acc: seq<seq<string>>, move: string, i: nat): (r: seq<seq<string>>)
    requires i % 2 == 1 ==> acc != []
  {
    if i % 2 == 0 then acc + [[move]]
    else acc[..|acc| - 1] + [acc[|acc| - 1] + [move]]
  }

  /** Row `i` of the table for history `h`: move `2i` and, when it exists,
      move `2i + 1`. */
  function Row(h: seq<string>, i: nat): seq<string>
    requires 2 * i < |h|
  {
    if 2 * i + 1 < |h| then [h[2 * i], h[2 * i + 1]] else [h[2 * i]]
  }

  /** `rows` is the table of `h`: one row per pair of moves, the last row
      holding a single move when the history has odd length. */
  ghost predicate RowsOf(h: seq<string>, rows: seq<seq<string>>)
  {
    && |rows| == (|h| + 1) / 2
    && forall i :: 0 <= i < |rows| ==> 2 * i < |h| && rows[i] == Row(h, i)
  }

  /** The rows of the move-history table, built as the history `reduce` in
      `App` builds them, one move at a time from the left. */
  function PairRows(h: seq<string>): (rows: seq<seq<string>>)
    ensures RowsOf(h, rows)
    decreases |h|
  {
    if h == [] then []
    else
      var prev := PairRows(h[..|h| - 1]);
      PairStepExtends(h, prev);
      PairStep(prev, h[|h| - 1], |h| - 1)
  }

  /** Adding the next move to the table of the history before it gives the
      table of the longer history. */
  lemma PairStepExtends(h: seq<string>, prev: seq<seq<string>>)
    requires h != [] && RowsOf(h[..|h| - 1], prev)
    ensures (|h| - 1) % 2 == 1 ==> prev != []
    ensures RowsOf(h, PairStep(prev, h[|h| - 1], |h| - 1))
  {
    var n := |h| - 1;
    var rows := PairStep(prev, h[n], n);
    forall i | 0 <= i < |rows|
      ensures 2 * i < |h| && rows[i] == Row(h, i)
    {
      if i < |prev| && (n % 2 == 0 || i < |prev| - 1) {
        assert rows[i] == prev[i];
        assert Row(h[..n], i) == Row(h, i);
      }
    }
  }

  /** Concatenation of rows. */
  function Flatten(rows: seq<seq<string>>): seq<string>
  {
    if rows == [] then [] else Flatten(rows[..|rows| - 1]) + rows[|rows| - 1]
  }
}
