/** The multiplayer session controller (`useMultiplayer`): the effect that
    runs whenever the play mode or the selected game changes, its cleanup,
    and the handlers for everything that later arrives from the network —
    the discovery poll's replies, the REST snapshot, and the socket's open,
    message, close and error events. */
module Multiplayer {
  import opened Prelude
  import opened Rules
  import opened Session

  // ---------------------------------------------------------------------------
  // Addresses
  // ---------------------------------------------------------------------------

  const LocalSocketBase := "ws://localhost:8000"
  const RemoteSocketBase := "wss://sp-14-green-chess-ai.onrender.com"

  /** The listing endpoint the discovery poll requests. */
  function GamesUrl(backend: string): string
  {
    backend + "/waiting-games/"
  }

  /** The REST snapshot endpoint of one game. */
  function SnapshotUrl(backend: string, gameId: string): string
  {
    backend + "/join-game/" + gameId
  }

  /** The socket server: the local development server exactly when the
      backend URL mentions "localhost", the hosted server otherwise. */
  function SocketBase(backend: string): (base: string)
    ensures base == LocalSocketBase <==> Contains(backend, "localhost")
    ensures base == RemoteSocketBase <==> !Contains(backend, "localhost")
  {
    if Includes(backend, "localhost") then LocalSocketBase else RemoteSocketBase
  }

  /** The address of the game's socket. It starts with the server and the
      game's path and ends with the client id as the `client_id` query
      parameter, so the server can recognise a returning client. */
  function SocketUrl(backend: string, gameId: string, clientId: string): (url: string)
    ensures var prefix := SocketBase(backend) + "/ws/chess/" + gameId;
            |prefix| <= |url| && url[..|prefix|] == prefix
    ensures var suffix := "?client_id=" + clientId;
            |suffix| <= |url| && url[|url| - |suffix|..] == suffix
    ensures |url| == |SocketBase(backend)| + 21 + |gameId| + |clientId|
  {
    var prefix := SocketBase(backend) + "/ws/chess/" + gameId;
    var suffix := "?client_id=" + clientId;
    assert (prefix + suffix)[..|prefix|] == prefix;
    assert (prefix + suffix)[|prefix|..] == suffix;
    prefix + suffix
  }

  // ---------------------------------------------------------------------------
  // Client id
  // ---------------------------------------------------------------------------

  /** The id used for a join and what local storage holds afterwards. */
  datatype ClientIdChoice = ClientIdChoice(id: string, stored: Option<string>)

  /** Reads the stored client id; when there is none (or it is empty) the
      fresh UUID is used and stored. Afterwards the store holds the id used. */
  function ChooseClientId(stored: Option<string>, uuid: string): (r: ClientIdChoice)
    ensures r.stored == Some(r.id)
    ensures Truthy(stored) ==> r.id == stored.value
    ensures !Truthy(stored) ==> r.id == uuid
  {
    if Truthy(stored) then ClientIdChoice(stored.value, stored)
    else ClientIdChoice(uuid, Some(uuid))
  }

  // ---------------------------------------------------------------------------
  // The effect and its cleanup
  // ---------------------------------------------------------------------------

  /** The effect body outside multiplayer mode: the socket is closed and
      forgotten, and colour, game list, status and history are cleared. The
      position itself is kept; the board is redrawn from it. */
  function LeaveMode(s: State, eng: Engine): (r: Step)
    ensures r.next.ws.None? && r.next.color.None?
    ensures r.next.games == [] && r.next.status == "" && r.next.history == []
    ensures r.next.game == s.game && r.next.fen == eng.fen(s.game)
    ensures r.next.mode == s.mode && r.next.gameId == s.gameId
    ensures r.next.polling == s.polling && r.next.clientId == s.clientId
    ensures r.cmds == if s.ws.Some? && Live(s.ws.value.ready)
                      then [CloseSocket(s.ws.value.id)] else []
    ensures Inv(s) ==> Inv(r.next)
  {
    var c := CloseCurrent(s);
    Step(c.next.(ws := None, color := None, games := [], status := "",
                 fen := eng.fen(s.game), history := []),
         c.cmds)
  }

  /** The effect body in multiplayer mode with a game selected: request the
      snapshot, settle the client id, and open a uuid socket to the game. */
  function JoinGame(s: State, backend: string, uuid: string): (r: Step)
    ensures var id := ChooseClientId(s.clientId, uuid).id;
            && r.next.ws == Some(Socket(s.nextSocket, Connecting))
            && r.next.clientId == Some(id)
            && r.cmds == [FetchSnapshot(SnapshotUrl(backend, s.gameId)),
                          OpenSocket(s.nextSocket, SocketUrl(backend, s.gameId, id))]
    ensures r.next.nextSocket > s.nextSocket
    ensures r.next.unclosed == s.unclosed + {s.nextSocket}
    ensures r.next.(ws := s.ws, clientId := s.clientId, nextSocket := s.nextSocket,
                    unclosed := s.unclosed) == s
  {
    var c := ChooseClientId(s.clientId, uuid);
    var id := s.nextSocket;
    Step(s.(clientId := c.stored, ws := Some(Socket(id, Connecting)),
            nextSocket := id + 1, unclosed := s.unclosed + {id}),
         [FetchSnapshot(SnapshotUrl(backend, s.gameId)),
          OpenSocket(id, SocketUrl(backend, s.gameId, c.id))])
  }

  /** The effect body. Outside multiplayer mode it leaves the session; in
      multiplayer mode with no game selected it fetches the game list now
      and every ten seconds; with a game selected it joins that game. It
      never changes the mode, the selected game, the typed id, the position
      or the orientation. */
  function Effect(s: State, eng: Engine, backend: string, uuid: string): (r: Step)
    ensures s.mode != Multiplayer ==>
              && r.next.ws.None? && r.next.color.None? && r.next.games == []
              && r.next.status == "" && r.next.history == [] && r.next.polling == s.polling
              && r.cmds == if s.ws.Some? && Live(s.ws.value.ready)
                           then [CloseSocket(s.ws.value.id)] else []
    ensures s.mode == Multiplayer && s.gameId == "" ==>
              r.next == s.(polling := true) && r.cmds == [FetchGames(GamesUrl(backend)), StartPoll]
    ensures s.mode == Multiplayer && s.gameId != "" ==>
              && r.next.ws == Some(Socket(s.nextSocket, Connecting))
              && r.next.polling == s.polling
              && r.next.clientId == Some(ChooseClientId(s.clientId, uuid).id)
              && r.next.(ws := s.ws, clientId := s.clientId, nextSocket := s.nextSocket,
                         unclosed := s.unclosed) == s
              && r.cmds == [FetchSnapshot(SnapshotUrl(backend, s.gameId)),
                            OpenSocket(s.nextSocket, SocketUrl(backend, s.gameId,
                                                                ChooseClientId(s.clientId, uuid).id))]
    ensures && r.next.mode == s.mode && r.next.gameId == s.gameId
            && r.next.gameIdInput == s.gameIdInput && r.next.game == s.game
            && r.next.orientation == s.orientation && r.next.nextSocket >= s.nextSocket
    ensures OpensSocket(r.cmds) <==> s.mode == Multiplayer && s.gameId != ""
    ensures OpensFresh(r.cmds, s.nextSocket, r.next.nextSocket)
    ensures StartPoll in r.cmds <==> s.mode == Multiplayer && s.gameId == ""
    ensures FetchGames(GamesUrl(backend)) in r.cmds <==> s.mode == Multiplayer && s.gameId == ""
    ensures StopPoll !in r.cmds
    ensures !(s.ws.Some? && Live(s.ws.value.ready)) ==>
              forall j | 0 <= j < |r.cmds| :: !Teardown(r.cmds[j])
  {
    if s.mode != Multiplayer then LeaveMode(s, eng)
    else if s.gameId == "" then
      Step(s.(polling := true), [FetchGames(GamesUrl(backend)), StartPoll])
    else
      var j := JoinGame(s, backend, uuid);
      assert j.cmds[1].OpenSocket?;
      j
  }

  /** The cleanup the effect returns: clear the interval if one was set and
      close the current socket (the ref itself is kept). */
  function Cleanup(s: State): (r: Step)
    ensures !r.next.polling
    ensures r.next.ws.None? <==> s.ws.None?
    ensures r.next.ws.Some? ==> r.next.ws.value.id == s.ws.value.id && !Live(r.next.ws.value.ready)
    ensures r.next.(polling := s.polling, ws := s.ws, unclosed := s.unclosed) == s
    ensures r.cmds == (if s.polling then [StopPoll] else [])
                      + CloseCurrent(s.(polling := false)).cmds
    ensures forall i | 0 <= i < |r.cmds| :: Teardown(r.cmds[i])
    ensures Inv(s) ==> Inv(r.next) && r.next.unclosed == {}
  {
    var c := CloseCurrent(s.(polling := false));
    Step(c.next, (if s.polling then [StopPoll] else []) + c.cmds)
  }

  /** A dependency change: React runs the previous effect's cleanup and then
      the effect again. The interval is stopped and the socket closed before
      anything new is requested; the list is fetched and polled exactly when
      no game is selected in multiplayer mode, and a socket is opened
      exactly when one is. */
  function Rerun(s: State, eng: Engine, backend: string, uuid: string): (r: Step)
    ensures r.next.polling <==> s.mode == Multiplayer && s.gameId == ""
    ensures StartPoll in r.cmds <==> s.mode == Multiplayer && s.gameId == ""
    ensures FetchGames(GamesUrl(backend)) in r.cmds <==> s.mode == Multiplayer && s.gameId == ""
    ensures OpensSocket(r.cmds) <==> s.mode == Multiplayer && s.gameId != ""
    ensures OpensFresh(r.cmds, s.nextSocket, r.next.nextSocket)
    ensures s.mode == Multiplayer && s.gameId != "" ==>
              && FetchSnapshot(SnapshotUrl(backend, s.gameId)) in r.cmds
              && OpenSocket(s.nextSocket, SocketUrl(backend, s.gameId,
                                                    ChooseClientId(s.clientId, uuid).id)) in r.cmds
              && r.next.ws == Some(Socket(s.nextSocket, Connecting))
              && r.next.clientId == Some(ChooseClientId(s.clientId, uuid).id)
    ensures s.mode == Multiplayer ==>
              && r.next.color == s.color && r.next.status == s.status
              && r.next.history == s.history && r.next.fen == s.fen && r.next.games == s.games
    ensures StopPoll in r.cmds <==> s.polling
    ensures s.ws.Some? && Live(s.ws.value.ready) ==> CloseSocket(s.ws.value.id) in r.cmds
    ensures TeardownFirst(r.cmds)
    ensures && r.next.mode == s.mode && r.next.gameId == s.gameId
            && r.next.gameIdInput == s.gameIdInput && r.next.game == s.game
            && r.next.orientation == s.orientation && r.next.nextSocket >= s.nextSocket
    ensures Inv(s) ==> Inv(r.next)
    ensures Inv(s) ==> |r.next.unclosed| <= 1
  {
    var c := Cleanup(s);
    var e := Effect(c.next, eng, backend, uuid);
    RerunCommands(s, c, e, eng, backend, uuid);
    Step(e.next, c.cmds + e.cmds)
  }

  /** What cleanup followed by the effect emits: cleanup only releases,
      the effect only requests, so each command has one origin. */
  lemma RerunCommands(s: State, c: Step, e: Step, eng: Engine, backend: string, uuid: string)
    requires c == Cleanup(s) && e == Effect(c.next, eng, backend, uuid)
    ensures StartPoll in c.cmds + e.cmds <==> s.mode == Multiplayer && s.gameId == ""
    ensures FetchGames(GamesUrl(backend)) in c.cmds + e.cmds <==> s.mode == Multiplayer && s.gameId == ""
    ensures OpensSocket(c.cmds + e.cmds) <==> s.mode == Multiplayer && s.gameId != ""
    ensures StopPoll in c.cmds + e.cmds <==> s.polling
    ensures TeardownFirst(c.cmds + e.cmds)
    ensures OpensFresh(c.cmds + e.cmds, s.nextSocket, e.next.nextSocket)
  {
    RerunOrder(c.cmds, e.cmds);
    OpensFreshConcat(c.cmds, e.cmds, s.nextSocket, s.nextSocket, e.next.nextSocket);
    OnlyReleases(c.cmds, StartPoll);
    OnlyReleases(c.cmds, FetchGames(GamesUrl(backend)));
  }

  /** A request is not among commands that only release. */
  lemma OnlyReleases(a: seq<Command>, x: Command)
    requires forall i | 0 <= i < |a| :: Teardown(a[i])
    requires !Teardown(x)
    ensures x !in a
  {
  }

  /** Releases followed by requests keep releases first, and a socket is
      opened by the whole run exactly when the requests open one. */
  lemma RerunOrder(a: seq<Command>, b: seq<Command>)
    requires forall i | 0 <= i < |a| :: Teardown(a[i])
    requires forall j | 0 <= j < |b| :: !Teardown(b[j])
    ensures TeardownFirst(a + b)
    ensures OpensSocket(a + b) <==> OpensSocket(b)
  {
    if OpensSocket(a + b) {
      var i :| 0 <= i < |a + b| && (a + b)[i].OpenSocket?;
      assert b[i - |a|].OpenSocket?;
    }
    if OpensSocket(b) {
      var j :| 0 <= j < |b| && b[j].OpenSocket?;
      assert (a + b)[|a| + j].OpenSocket?;
    }
  }

  /** The state after a user action: when the play mode or the selected game
      changed, the effect reruns; otherwise nothing else happens. */
  function Commit(before: State, after: State, eng: Engine, backend: string, uuid: string): (r: Step)
    ensures after.mode == before.mode && after.gameId == before.gameId ==> r == Step(after, [])
    ensures after.mode != before.mode || after.gameId != before.gameId ==>
              r == Rerun(after, eng, backend, uuid)
  {
    if after.mode != before.mode || after.gameId != before.gameId
    then Rerun(after, eng, backend, uuid)
    else Step(after, [])
  }

  // ---------------------------------------------------------------------------
  // Discovery poll
  // ---------------------------------------------------------------------------

  /** A tick of the discovery interval requests the list only while the
      interval is set. */
  function PollTick(s: State, backend: string): (r: Step)
    ensures r.next == s
    ensures r.cmds != [] <==> s.polling
    ensures s.polling ==> r.cmds == [FetchGames(GamesUrl(backend))]
  {
    if s.polling then Step(s, [FetchGames(GamesUrl(backend))]) else Step(s, [])
  }

  /** The reply to a listing request: an OK response with its JSON body, or
      a failure (an HTTP error, an unreachable server, an unreadable body). */
  datatype GamesReply = GamesListed(games: Option<seq<string>>) | GamesFailed

  /** A successful listing replaces the advertised games (`data.games || []`);
      a failed one is only logged. */
  function GamesArrived(s: State, reply: GamesReply): (r: State)
    ensures reply.GamesFailed? ==> r == s
    ensures reply.GamesListed? ==> r == s.(games := OrEmpty(reply.games))
  {
    match reply
    case GamesListed(games) => s.(games := OrEmpty(games))
    case GamesFailed => s
  }

  // ---------------------------------------------------------------------------
  // REST snapshot
  // ---------------------------------------------------------------------------

  /** The JSON body of a snapshot: `{fen, move_history, status}`. */
  datatype Snapshot = Snapshot(fen: string, moveHistory: Option<seq<string>>, status: Option<string>)

  /** The reply to a snapshot request: an OK response with its body, a
      response whose status is not OK, or a request that failed with a
      message (network failure or unreadable body). */
  datatype SnapshotReply = SnapshotBody(data: Snapshot) | SnapshotNotOk | SnapshotFailed(message: string)

  const JoinFailedText := "Failed to join game. Try another ID."

  /** `initGameState`'s completion. A readable snapshot overwrites position,
      board, history and status (colour is left alone); every failure,
      including a FEN the engine rejects, only writes its message to the
      status. */
  function SnapshotArrived(s: State, eng: Engine, reply: SnapshotReply): (r: State)
    ensures r.color == s.color && r.ws == s.ws && r.clientId == s.clientId
    ensures reply.SnapshotBody? && eng.parse(reply.data.fen).Parsed? ==>
              && r.game == eng.parse(reply.data.fen).pos
              && r.fen == reply.data.fen
              && r.history == OrEmpty(reply.data.moveHistory)
              && r.status == OrText(reply.data.status, "ongoing")
              && r == s.(game := r.game, fen := r.fen, history := r.history, status := r.status)
    ensures !(reply.SnapshotBody? && eng.parse(reply.data.fen).Parsed?) ==>
              r == s.(status := r.status)
    ensures reply.SnapshotNotOk? ==> r == s.(status := JoinFailedText)
    ensures reply.SnapshotFailed? ==> r == s.(status := reply.message)
    ensures reply.SnapshotBody? && eng.parse(reply.data.fen).Invalid? ==>
              r == s.(status := eng.parse(reply.data.fen).reason)
  {
    match reply
    case SnapshotNotOk => s.(status := JoinFailedText)
    case SnapshotFailed(message) => s.(status := message)
    case SnapshotBody(data) =>
      match eng.parse(data.fen)
      case Invalid(reason) => s.(status := reason)
      case Parsed(p) =>
        s.(game := p, fen := data.fen, history := OrEmpty(data.moveHistory),
           status := OrText(data.status, "ongoing"))
  }

  // ---------------------------------------------------------------------------
  // Socket events
  // ---------------------------------------------------------------------------

  /** The messages the server sends, as parsed JSON; any other `type` is
      ignored by the handler. */
  datatype Inbound =
    | ErrorIn(message: string)
    | InitIn(fen: string, moveHistory: Option<seq<string>>, status: Option<string>, color: Option<string>)
    | MoveIn(from: string, to: string, promotion: Option<string>, status: Option<string>)
    | OtherIn

  const ErrorPrefix := "Failed to join game: "

  /** `onmessage`: dispatch on the message's type. */
  function OnMessage(s: State, eng: Engine, backend: string, msg: Inbound): (r: Step)
    ensures msg.OtherIn? ==> r == Step(s, [])
    ensures msg.ErrorIn? ==>
              && r.next.status == ErrorPrefix + msg.message
              && r.next.game == s.game && r.next.fen == s.fen
              && r.next.history == s.history && r.next.color == s.color
              && r.next.ws.None? == s.ws.None?
              && (r.next.ws.Some? ==> r.next.ws.value.id == s.ws.value.id && !Live(r.next.ws.value.ready))
              && r.cmds == CloseCurrent(s).cmds
              && r.next.(status := s.status, ws := s.ws, unclosed := s.unclosed) == s
    ensures msg.InitIn? && eng.parse(msg.fen).Parsed? ==>
              && r.cmds == []
              && r.next == s.(game := eng.parse(msg.fen).pos, fen := msg.fen,
                              history := OrEmpty(msg.moveHistory),
                              status := OrText(msg.status, "ongoing"), color := msg.color)
    ensures msg.InitIn? && eng.parse(msg.fen).Invalid? ==>
              r == Step(s, [FetchSnapshot(SnapshotUrl(backend, s.gameId))])
    ensures msg.MoveIn? ==>
              var m := eng.apply(s.game, msg.from, msg.to, OrText(msg.promotion, "q"));
              && (m.Moved? ==>
                    && r.cmds == []
                    && r.next.game == m.pos && r.next.fen == eng.fen(m.pos)
                    && r.next.history == s.history + [m.san]
                    && r.next.status == OrText(msg.status, "ongoing")
                    && r.next.(game := s.game, fen := s.fen, history := s.history,
                               status := s.status) == s)
              && (m.NoMove? ==> r == Step(s, []))
              && (m.Threw? ==> r == Step(s, [FetchSnapshot(SnapshotUrl(backend, s.gameId))]))
    ensures Inv(s) ==> Inv(r.next)
  {
    match msg
    case ErrorIn(message) =>
      CloseCurrent(s.(status := ErrorPrefix + message))
    case InitIn(fen, moveHistory, status, color) =>
      (match eng.parse(fen)
       case Parsed(p) =>
         Step(s.(game := p, fen := fen, history := OrEmpty(moveHistory),
                 status := OrText(status, "ongoing"), color := color), [])
       case Invalid(_) =>
         Step(s, [FetchSnapshot(SnapshotUrl(backend, s.gameId))]))
    case MoveIn(from, to, promotion, status) =>
      (match eng.apply(s.game, from, to, OrText(promotion, "q"))
       case Moved(p, san) =>
         Step(Advance(s, eng, p, san).(status := OrText(status, "ongoing")), [])
       case NoMove => Step(s, [])
       case Threw => Step(s, [FetchSnapshot(SnapshotUrl(backend, s.gameId))]))
    case OtherIn => Step(s, [])
  }

  const DisconnectedText := "Disconnected"
  const ConnectFailedText := "Failed to connect to game server"

  /** `onclose` of socket `id`: whichever socket it was, the colour is
      cleared and the status reads "Disconnected"; position and history stay
      on display. */
  function OnClose(s: State, id: nat): (r: State)
    ensures r.color.None? && r.status == DisconnectedText
    ensures r.game == s.game && r.fen == s.fen && r.history == s.history
    ensures r.unclosed == s.unclosed - {id}
    ensures r.(color := s.color, status := s.status, ws := s.ws, unclosed := s.unclosed) == s
    ensures s.ws.Some? && s.ws.value.id == id ==> r.ws == Some(Socket(id, Closed))
    ensures !(s.ws.Some? && s.ws.value.id == id) ==> r.ws == s.ws
    ensures Inv(s) ==> Inv(r)
  {
    var ws := if s.ws.Some? && s.ws.value.id == id then Some(Socket(id, Closed)) else s.ws;
    s.(color := None, status := DisconnectedText, ws := ws, unclosed := s.unclosed - {id})
  }

  /** `onerror`: only the status changes. */
  function OnSocketError(s: State): (r: State)
    ensures r.status == ConnectFailedText
    ensures r.(status := s.status) == s
  {
    s.(status := ConnectFailedText)
  }

  /** The open event of socket `id`: a connecting current socket becomes
      open; `onopen` itself only logs. */
  function OnOpen(s: State, id: nat): (r: State)
    ensures s.ws == Some(Socket(id, Connecting)) ==> r == s.(ws := Some(Socket(id, Open)))
    ensures s.ws != Some(Socket(id, Connecting)) ==> r == s
    ensures Inv(s) ==> Inv(r)
  {
    if s.ws == Some(Socket(id, Connecting)) then s.(ws := Some(Socket(id, Open))) else s
  }
}
