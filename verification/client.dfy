/** The whole client as one state machine: every user action, timer tick
    and network completion is a discrete event handled against one state
    value, in the order the runtime delivers them. */
module Client {
  import opened Rules
  import opened Session
  import Multiplayer
  import Board

  /** The events the client reacts to. */
  datatype Event =
    // user actions
    | SelectMode(mode: Mode)                    // the play-mode selector
    | SelectGame(gameId: string)                // the game list selector
    | CreateGame(gameId: string)                // "Create New Game" with its fresh UUID
    | TypeGameId(text: string)                  // typing in the game-id box
    | ClickJoin                                 // "Join"
    | DropPiece(from: string, to: string)       // a piece dropped on the board
    | ClickReset                                // "Reset Game"
    | ClickUndo                                 // "Undo Move"
    | ClickFlip                                 // "Flip Board"
    | EngineReply(best: string)                 // the best-move request answered
    // timers and network completions
    | PollTick                                  // the discovery interval fires
    | GamesReplied(games: Multiplayer.GamesReply)
    | SnapshotReplied(snapshot: Multiplayer.SnapshotReply)
    | SocketOpened(id: nat)
    | SocketMessage(msg: Multiplayer.Inbound)
    | SocketClosed(id: nat)
    | SocketFailed
    // the component goes away
    | Unmount

  /** The environment of one event: the rules engine, the configured
      backend URL, and the UUID `crypto.randomUUID()` would return if the
      effect asked for a client id now. "Create New Game" draws its own UUID
      for the game id, which its event carries. */
  datatype Env = Env(eng: Engine, backend: string, uuid: string)

  /** Handle one event. Socket ids only grow, only Flip Board turns the
      board, and a created game is joined under its own id with the client
      id settled separately. */
  function Handle(s: State, env: Env, ev: Event): (r: Step)
    ensures r.next.nextSocket >= s.nextSocket
    ensures OpensFresh(r.cmds, s.nextSocket, r.next.nextSocket)
    ensures !ev.ClickFlip? ==> r.next.orientation == s.orientation
    ensures ev.CreateGame? && s.mode == Multiplayer && ev.gameId != "" && ev.gameId != s.gameId ==>
              && r.next.gameId == ev.gameId
              && OpenSocket(s.nextSocket, Multiplayer.SocketUrl(env.backend, ev.gameId,
                                            Multiplayer.ChooseClientId(s.clientId, env.uuid).id)) in r.cmds
  {
    var eng := env.eng;
    match ev
    case SelectMode(mode) => Board.ChooseMode(s, mode, eng, env.backend, env.uuid)
    case SelectGame(gameId) =>
      Multiplayer.Commit(s, s.(gameId := gameId), eng, env.backend, env.uuid)
    case CreateGame(gameId) =>
      Multiplayer.Commit(s, s.(gameId := gameId), eng, env.backend, env.uuid)
    case TypeGameId(text) => Step(s.(gameIdInput := text), [])
    case ClickJoin => Board.JoinButton(s, eng, env.backend, env.uuid)
    case DropPiece(from, to) =>
      var d := Board.OnDrop(s, eng, from, to);
      Step(d.next, d.cmds)
    case ClickReset => Board.ResetGame(s, eng)
    case ClickUndo => Step(Board.UndoButton(s, eng), [])
    case ClickFlip => Step(Board.FlipBoard(s), [])
    case EngineReply(best) => Step(Board.EngineMoveArrived(s, eng, best), [])
    case PollTick => Multiplayer.PollTick(s, env.backend)
    case GamesReplied(reply) => Step(Multiplayer.GamesArrived(s, reply), [])
    case SnapshotReplied(reply) => Step(Multiplayer.SnapshotArrived(s, eng, reply), [])
    case SocketOpened(id) => Step(Multiplayer.OnOpen(s, id), [])
    case SocketMessage(msg) => Multiplayer.OnMessage(s, eng, env.backend, msg)
    case SocketClosed(id) => Step(Multiplayer.OnClose(s, id), [])
    case SocketFailed => Step(Multiplayer.OnSocketError(s), [])
    case Unmount => Multiplayer.Cleanup(s)
  }

  /** Handle a sequence of events in order; the commands are collected in
      the order they were requested. */
  function Run(s: State, env: Env, evs: seq<Event>): (r: Step)
    ensures r.next.nextSocket >= s.nextSocket
    ensures OpensFresh(r.cmds, s.nextSocket, r.next.nextSocket)
    ensures (forall i | 0 <= i < |evs| :: !evs[i].ClickFlip?) ==> r.next.orientation == s.orientation
    decreases |evs|
  {
    if evs == [] then Step(s, [])
    else
      var first := Handle(s, env, evs[0]);
      var rest := Run(first.next, env, evs[1..]);
      OpensFreshConcat(first.cmds, rest.cmds, s.nextSocket, first.next.nextSocket, rest.next.nextSocket);
      Step(rest.next, first.cmds + rest.cmds)
  }

  /** Every event keeps the socket ownership invariant. */
  lemma HandleKeepsInv(s: State, env: Env, ev: Event)
    requires Inv(s)
    ensures Inv(Handle(s, env, ev).next)
  {
    match ev
    case SelectMode(mode) => CommitKeepsInv(s, s.(mode := mode), env);
    case SelectGame(gameId) => CommitKeepsInv(s, s.(gameId := gameId), env);
    case CreateGame(gameId) => CommitKeepsInv(s, s.(gameId := gameId), env);
    case ClickJoin => CommitKeepsInv(s, Board.JoinTyped(s), env);
    case _ => LocalKeepsInv(s, env, ev);
  }

  /** A user action that only edits the mode, the selected game or the typed
      id keeps the invariant, and so does the rerun it may cause. */
  lemma CommitKeepsInv(s: State, after: State, env: Env)
    requires Inv(s)
    requires after.(mode := s.mode, gameId := s.gameId, gameIdInput := s.gameIdInput) == s
    ensures Inv(Multiplayer.Commit(s, after, env.eng, env.backend, env.uuid).next)
  {
  }

  /** Every event that causes no rerun keeps the invariant. */
  lemma LocalKeepsInv(s: State, env: Env, ev: Event)
    requires Inv(s)
    requires !(ev.SelectMode? || ev.SelectGame? || ev.CreateGame? || ev.ClickJoin?)
    ensures Inv(Handle(s, env, ev).next)
  {
    match ev
    case DropPiece(from, to) =>
      var d := Board.OnDrop(s, env.eng, from, to);
      assert d.next.ws == s.ws && d.next.unclosed == s.unclosed;
    case ClickReset =>
      var d := Board.ResetGame(s, env.eng);
      assert d.next.ws == s.ws && d.next.unclosed == s.unclosed;
    case ClickUndo =>
      var d := Board.UndoButton(s, env.eng);
      assert d.ws == s.ws && d.unclosed == s.unclosed;
    case EngineReply(best) =>
      var d := Board.EngineMoveArrived(s, env.eng, best);
      assert d.ws == s.ws && d.unclosed == s.unclosed;
    case _ => NetworkKeepsInv(s, env, ev);
  }

  /** Timer ticks, network completions, socket events and unmounting keep
      the invariant. */
  lemma NetworkKeepsInv(s: State, env: Env, ev: Event)
    requires Inv(s)
    requires !(ev.SelectMode? || ev.SelectGame? || ev.CreateGame? || ev.ClickJoin?)
    requires !(ev.DropPiece? || ev.ClickReset? || ev.ClickUndo? || ev.EngineReply?)
    ensures Inv(Handle(s, env, ev).next)
  {
    match ev
    case SnapshotReplied(reply) =>
      var d := Multiplayer.SnapshotArrived(s, env.eng, reply);
      assert d.ws == s.ws && d.unclosed == s.unclosed;
    case _ =>
  }
}
