/** Properties that relate several transitions: socket ownership over any
    run of events, replaying moves locally and from the server, undo after a
    drop, the close event that follows an error, the client id across joins,
    socket addresses, the history table and trimming. */
module Properties {
  import opened Prelude
  import opened Rules
  import opened Session
  import opened Multiplayer
  import opened Board
  import opened Client

  // ---------------------------------------------------------------------------
  // Socket ownership
  // ---------------------------------------------------------------------------

  /** From mount on, whatever events arrive, at most one socket has been
      created and not yet asked to close, and it is the current one. */
  lemma {:induction false} RunKeepsOneSocket(s: State, env: Env, evs: seq<Event>)
    requires Inv(s)
    ensures Inv(Run(s, env, evs).next)
    ensures |Run(s, env, evs).next.unclosed| <= 1
    decreases |evs|
  {
    if evs != [] {
      HandleKeepsInv(s, env, evs[0]);
      RunKeepsOneSocket(Handle(s, env, evs[0]).next, env, evs[1..]);
    }
  }

  /** The mounted client owns no socket. */
  lemma MountedClientOwnsNoSocket(eng: Engine, stored: Option<string>)
    ensures Inv(Initial(eng, stored))
    ensures Initial(eng, stored).unclosed == {}
  {
  }

  /** Releasing twice is releasing once: a second cleanup stops no timer
      and closes no socket. */
  lemma CleanupIdempotent(s: State)
    ensures Cleanup(Cleanup(s).next) == Step(Cleanup(s).next, [])
  {
  }

  // ---------------------------------------------------------------------------
  // Error, close and leaving
  // ---------------------------------------------------------------------------

  /** An `error` message closes the socket; the close event that follows
      replaces the error text with "Disconnected" and clears the colour,
      while position and history are those from before the error. */
  lemma ErrorThenClose(s: State, eng: Engine, backend: string, message: string)
    requires s.ws.Some? && Live(s.ws.value.ready)
    ensures var e := OnMessage(s, eng, backend, ErrorIn(message));
            && e.cmds == [CloseSocket(s.ws.value.id)]
            && e.next.status == ErrorPrefix + message
            && var c := OnClose(e.next, s.ws.value.id);
               && c.status == DisconnectedText && c.color.None?
               && c.game == s.game && c.fen == s.fen && c.history == s.history
               && c.ws == Some(Socket(s.ws.value.id, Closed))
  {
  }

  /** Leaving multiplayer mode clears the status, but the close event of the
      socket it closed arrives afterwards and still writes "Disconnected":
      the handler is not detached when the socket is dropped. */
  lemma LateCloseAfterLeaving(s: State, mode: Mode, eng: Engine, backend: string, uuid: string)
    requires s.mode == Multiplayer && mode != Multiplayer
    requires s.ws.Some? && Live(s.ws.value.ready)
    ensures var left := ChooseMode(s, mode, eng, backend, uuid);
            && left.next.status == "" && left.next.ws.None?
            && CloseSocket(s.ws.value.id) in left.cmds
            && OnClose(left.next, s.ws.value.id).status == DisconnectedText
  {
  }

  /** Switching from one game to another closes the first socket, but its
      close event, arriving after the new socket has opened and handed out
      a colour, still clears that colour and writes "Disconnected" over the
      new session, whose socket stays open. */
  lemma StaleCloseAfterSwitchingGames(s: State, eng: Engine, backend: string, uuid: string,
                                       g2: string, fen: string, p: Pos)
    requires Inv(s) && s.mode == Multiplayer && s.gameId != "" && g2 != "" && g2 != s.gameId
    requires s.ws.Some? && Live(s.ws.value.ready)
    requires eng.parse(fen) == Parsed(p)
    ensures var stale := s.ws.value.id;
            var a := Commit(s, s.(gameId := g2), eng, backend, uuid);
            var b := OnOpen(a.next, s.nextSocket);
            var c := OnMessage(b, eng, backend, InitIn(fen, None, None, Some("white"))).next;
            var d := OnClose(c, stale);
            && CloseSocket(stale) in a.cmds && a.next.gameId == g2
            && c.color == Some("white") && c.status == "ongoing" && SocketOpen(c)
            && d.color.None? && d.status == DisconnectedText
            && d.ws == Some(Socket(s.nextSocket, Open)) && d.gameId == g2
  {
  }

  /** The snapshot request is never cancelled: a snapshot of the first game
      that arrives after switching to a second game, and after that game's
      handshake, overwrites the new game's position, history and status
      while the second game stays selected. */
  lemma StaleSnapshotAfterSwitchingGames(s: State, eng: Engine, backend: string, uuid: string,
                                         g2: string, fen2: string, p2: Pos, stale: Snapshot, p1: Pos)
    requires s.mode == Multiplayer && s.gameId != "" && g2 != "" && g2 != s.gameId
    requires eng.parse(fen2) == Parsed(p2) && eng.parse(stale.fen) == Parsed(p1)
    ensures var a := Commit(s, s.(gameId := g2), eng, backend, uuid);
            var c := OnMessage(a.next, eng, backend, InitIn(fen2, None, None, Some("white"))).next;
            var d := SnapshotArrived(c, eng, SnapshotBody(stale));
            && c.game == p2 && c.fen == fen2
            && d.game == p1 && d.fen == stale.fen && d.history == OrEmpty(stale.moveHistory)
            && d.status == OrText(stale.status, "ongoing")
            && d.gameId == g2 && d.color == Some("white")
  {
  }

  // ---------------------------------------------------------------------------
  // Replaying moves
  // ---------------------------------------------------------------------------

  /** The outcome of dropping pieces one after another. */
  datatype DropRun = DropRun(next: State, accepted: nat, cmds: seq<Command>)

  function DropAll(s: State, eng: Engine, drags: seq<Drag>): DropRun
    decreases |drags|
  {
    if drags == [] then DropRun(s, 0, [])
    else
      var d := OnDrop(s, eng, drags[0].from, drags[0].to);
      var rest := DropAll(d.next, eng, drags[1..]);
      DropRun(rest.next, rest.accepted + (if d.accepted then 1 else 0), d.cmds + rest.cmds)
  }

  /** Outside multiplayer mode, a run of drops ends at the position the
      engine reaches by replaying them; the history grows by exactly the
      SANs of the accepted drops, one per accepted drop; nothing is sent and
      nothing else changes. */
  lemma {:induction false} LocalDropsReplay(s: State, eng: Engine, drags: seq<Drag>)
    requires s.mode != Multiplayer
    ensures var run := DropAll(s, eng, drags);
            var rep := Replay(eng, s.game, drags);
            && run.next.game == rep.pos
            && run.next.history == s.history + rep.sans
            && run.accepted == |rep.sans|
            && run.cmds == []
            && run.next.(game := s.game, fen := s.fen, history := s.history) == s
    decreases |drags|
  {
    if drags != [] {
      var d := OnDrop(s, eng, drags[0].from, drags[0].to);
      LocalDropsReplay(d.next, eng, drags[1..]);
      if d.accepted {
        var m := eng.apply(s.game, drags[0].from, drags[0].to, "q");
        assert s.history + [m.san] + Replay(eng, m.pos, drags[1..]).sans
               == s.history + ([m.san] + Replay(eng, m.pos, drags[1..]).sans);
      }
    }
  }

  /** The server echoing moves without promotion or status fields. */
  function EchoAll(s: State, eng: Engine, backend: string, drags: seq<Drag>): Step
    decreases |drags|
  {
    if drags == [] then Step(s, [])
    else
      var e := OnMessage(s, eng, backend, MoveIn(drags[0].from, drags[0].to, None, None));
      var rest := EchoAll(e.next, eng, backend, drags[1..]);
      Step(rest.next, e.cmds + rest.cmds)
  }

  /** Moves arriving from the server are applied in arrival order with the
      default queen promotion: the position is the engine's replay of them,
      the history grows by their SANs, and the status is "ongoing" once one
      of them was legal. */
  lemma {:induction false} EchoedMovesReplay(s: State, eng: Engine, backend: string, drags: seq<Drag>)
    ensures var e := EchoAll(s, eng, backend, drags);
            var rep := Replay(eng, s.game, drags);
            && e.next.game == rep.pos
            && e.next.history == s.history + rep.sans
            && (rep.sans != [] ==> e.next.status == "ongoing")
            && (rep.sans == [] ==> e.next == s)
            && e.next.color == s.color && e.next.ws == s.ws
    decreases |drags|
  {
    if drags != [] {
      var d := drags[0];
      var e := OnMessage(s, eng, backend, MoveIn(d.from, d.to, None, None));
      EchoedMovesReplay(e.next, eng, backend, drags[1..]);
      var m := eng.apply(s.game, d.from, d.to, "q");
      if m.Moved? {
        assert s.history + [m.san] + Replay(eng, m.pos, drags[1..]).sans
               == s.history + ([m.san] + Replay(eng, m.pos, drags[1..]).sans);
      }
    }
  }

  /** From one state outside multiplayer mode, the drop handler and the
      `move` message handler, given the same moves, reach the same position
      and history: both apply a move with the default queen promotion and
      record its SAN the same way. */
  lemma LocalAndEchoAgree(s: State, eng: Engine, backend: string, drags: seq<Drag>)
    requires s.mode != Multiplayer
    ensures DropAll(s, eng, drags).next.game == EchoAll(s, eng, backend, drags).next.game
    ensures DropAll(s, eng, drags).next.history == EchoAll(s, eng, backend, drags).next.history
  {
    LocalDropsReplay(s, eng, drags);
    EchoedMovesReplay(s, eng, backend, drags);
  }

  // ---------------------------------------------------------------------------
  // Undo
  // ---------------------------------------------------------------------------

  /** With an engine whose undo takes back the last move, undoing right after
      an accepted drop restores the position, the board and the history. */
  lemma DropThenUndo(s: State, eng: Engine, from: string, to: string)
    requires UndoReverts(eng)
    requires OnDrop(s, eng, from, to).accepted
    ensures UndoButton(OnDrop(s, eng, from, to).next, eng) == s.(fen := eng.fen(s.game))
  {
  }

  // ---------------------------------------------------------------------------
  // Client id and socket address
  // ---------------------------------------------------------------------------

  /** Once an id is stored, later joins reuse it, whatever UUID they draw. */
  lemma ClientIdReused(stored: Option<string>, uuid1: string, uuid2: string)
    requires Truthy(stored) || uuid1 != ""
    ensures var first := ChooseClientId(stored, uuid1);
            ChooseClientId(first.stored, uuid2) == first
  {
  }

  /** Two joins in a row, to different games, open sockets that carry the
      same client id. */
  lemma SuccessiveJoinsShareClientId(s: State, backend: string, g1: string, g2: string,
                                      uuid1: string, uuid2: string)
    requires Truthy(s.clientId) || uuid1 != ""
    ensures var j1 := JoinGame(s.(gameId := g1), backend, uuid1);
            var j2 := JoinGame(j1.next.(gameId := g2), backend, uuid2);
            var id := ChooseClientId(s.clientId, uuid1).id;
            && j1.cmds[1] == OpenSocket(s.nextSocket, SocketUrl(backend, g1, id))
            && j2.cmds[1] == OpenSocket(s.nextSocket + 1, SocketUrl(backend, g2, id))
  {
  }

  /** The configured backend URL mentions "localhost", so the client talks
      to the local socket server. */
  lemma AppUsesLocalSocketServer()
    ensures SocketBase(AppBackendUrl) == LocalSocketBase
  {
    assert OccursAt(AppBackendUrl, "localhost", 9);
  }

  /** Different games get different socket addresses for the same client. */
  lemma SocketUrlsTellGamesApart(backend: string, g1: string, g2: string, clientId: string)
    requires g1 != g2
    ensures SocketUrl(backend, g1, clientId) != SocketUrl(backend, g2, clientId)
  {
    var head := SocketBase(backend) + "/ws/chess/";
    var tail := "?client_id=" + clientId;
    assert SocketUrl(backend, g1, clientId) == head + g1 + tail;
    assert SocketUrl(backend, g2, clientId) == head + g2 + tail;
    if head + g1 + tail == head + g2 + tail {
      MiddleDetermined(head, g1, g2, tail);
    }
  }

  /** The same head and tail around two middles give the same string only
      when the middles are equal. */
  lemma MiddleDetermined(head: string, a: string, b: string, tail: string)
    requires head + a + tail == head + b + tail
    ensures a == b
  {
    var u := head + a + tail;
    assert |a| == |b|;
    assert u[|head|..|head| + |a|] == a;
    assert (head + b + tail)[|head|..|head| + |b|] == b;
  }

  // ---------------------------------------------------------------------------
  // History table, trimming, flipping
  // ---------------------------------------------------------------------------

  /** Reading the rows of a table in order gives back its history. */
  lemma {:induction false} FlattenRows(h: seq<string>, rows: seq<seq<string>>)
    requires RowsOf(h, rows)
    ensures Flatten(rows) == h
    decreases |rows|
  {
    if rows != [] {
      var k := |rows| - 1;
      RowsOfFront(h, rows);
      FlattenRows(h[..2 * k], rows[..k]);
      assert rows[k] == h[2 * k..];
      assert h == h[..2 * k] + h[2 * k..];
    }
  }

  /** Dropping a table's last row leaves the table of the moves before it. */
  lemma RowsOfFront(h: seq<string>, rows: seq<seq<string>>)
    requires RowsOf(h, rows) && rows != []
    ensures 2 * (|rows| - 1) <= |h|
    ensures RowsOf(h[..2 * (|rows| - 1)], rows[..|rows| - 1])
  {
    var k := |rows| - 1;
    var front := h[..2 * k];
    forall i | 0 <= i < k
      ensures 2 * i < |front| && rows[..k][i] == Row(front, i)
    {
      assert Row(front, i) == Row(h, i);
    }
  }

  /** The move-history table lists every move once, in order. */
  lemma PairRowsKeepHistory(h: seq<string>)
    ensures Flatten(PairRows(h)) == h
  {
    FlattenRows(h, PairRows(h));
  }

  /** A trimmed id is already trimmed: entering it again selects the same
      game. */
  lemma TrimIdempotent(s: string)
    ensures Trim(Trim(s)) == Trim(s)
  {
  }

  /** Flipping the board twice restores its orientation. */
  lemma FlipTwice(s: State)
    requires s.orientation == "white" || s.orientation == "black"
    ensures FlipBoard(FlipBoard(s)) == s
  {
  }

  // ---------------------------------------------------------------------------
  // A session from handshake to reply
  // ---------------------------------------------------------------------------

  /** White receives the handshake, plays e2-e4, which is applied and sent,
      and then receives Black's e7-e5: the history reads e4, e5 and White
      is to move again. */
  lemma OpeningExchange(s: State, eng: Engine, backend: string, startFen: string,
                        p0: Pos, p1: Pos, p2: Pos)
    requires s.mode == Multiplayer && SocketOpen(s)
    requires eng.parse(startFen) == Parsed(p0) && eng.turn(p0) == W
    requires eng.apply(p0, "e2", "e4", "q") == Moved(p1, "e4")
    requires eng.apply(p1, "e7", "e5", "q") == Moved(p2, "e5")
    requires eng.turn(p2) == W
    ensures var a := OnMessage(s, eng, backend,
                               InitIn(startFen, Some([]), Some("ongoing"), Some("white"))).next;
            var b := OnDrop(a, eng, "e2", "e4");
            var c := OnMessage(b.next, eng, backend, MoveIn("e7", "e5", None, None)).next;
            && b.accepted && b.next.history == ["e4"] && b.next.game == p1
            && b.cmds == [Send(s.ws.value.id, MoveOut("e2", "e4"))]
            && c.history == ["e4", "e5"] && c.game == p2 && eng.turn(c.game) == W
            && c.status == "ongoing" && c.color == Some("white")
  {
  }
}
