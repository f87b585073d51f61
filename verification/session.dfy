/** The client's session state: everything `App` keeps in React state and
    refs that the multiplayer logic reads or writes, the sockets it owns and
    the side effects a transition asks the runtime to perform. */
module Session {
  import opened Prelude
  import opened Rules

  /** `playMode`: "local", "engine" or "multiplayer". */
  datatype Mode = Local | VsEngine | Multiplayer

  /** A WebSocket's `readyState`. */
  datatype ReadyState = Connecting | Open | Closing | Closed

  /** A WebSocket the client created; `id` tells the sockets apart. */
  datatype Socket = Socket(id: nat, ready: ReadyState)

  /** The JSON messages the client sends: `{type: "move", from, to}` and
      `{type: "reset"}`. */
  datatype Outbound = MoveOut(from: string, to: string) | ResetOut

  /** The side effects a transition requests. */
  datatype Command =
    | OpenSocket(id: nat, url: string)      // new WebSocket(url)
    | Send(id: nat, msg: Outbound)          // socket.send(JSON.stringify(msg))
    | CloseSocket(id: nat)                  // socket.close() on a live socket
    | FetchGames(url: string)               // GET .../waiting-games/
    | FetchSnapshot(url: string)            // GET .../join-game/<id>
    | StartPoll                             // setInterval(fetchGames, 10000)
    | StopPoll                              // clearInterval(interval)

  /** One value for the whole client state.
      `game` is `gameRef.current`; `fen`, `history`, `color`, `status` and
      `games` are the React state the board and panels display; `ws` is
      `wsRef.current`; `polling` says whether the discovery interval is set;
      `clientId` is the `clientId` entry of local storage; `unclosed` holds
      every socket created whose `close()` was never called and whose close
      event has not arrived. */
  datatype State = State(
    mode: Mode,
    gameId: string,
    gameIdInput: string,
    game: Pos,
    fen: string,
    history: seq<string>,
    color: Option<string>,
    status: string,
    games: seq<string>,
    ws: Option<Socket>,
    nextSocket: nat,
    unclosed: set<nat>,
    polling: bool,
    clientId: Option<string>,
    orientation: string
  )

  /** Commands that release what an earlier run of the effect set up. */
  predicate Teardown(c: Command)
  {
    c.CloseSocket? || c.StopPoll?
  }

  /** Every release comes before every new request or connection. */
  predicate TeardownFirst(cmds: seq<Command>)
  {
    forall i, j | 0 <= i < |cmds| && 0 <= j < |cmds| && Teardown(cmds[i]) && !Teardown(cmds[j]) :: i < j
  }

  /** Some command opens a socket. */
  predicate OpensSocket(cmds: seq<Command>)
  {
    exists i | 0 <= i < |cmds| :: cmds[i].OpenSocket?
  }

  /** Every socket `cmds` opens takes an id from `lo` up to, not including,
      `hi`: above every id handed out before, below the counter after. */
  predicate OpensFresh(cmds: seq<Command>, lo: nat, hi: nat)
  {
    forall i | 0 <= i < |cmds| && cmds[i].OpenSocket? :: lo <= cmds[i].id < hi
  }

  /** Two runs of commands that open sockets from consecutive id ranges
      together open sockets from the joined range. */
  lemma OpensFreshConcat(a: seq<Command>, b: seq<Command>, lo: nat, mid: nat, hi: nat)
    requires OpensFresh(a, lo, mid) && OpensFresh(b, mid, hi) && lo <= mid <= hi
    ensures OpensFresh(a + b, lo, hi)
  {
    forall i | 0 <= i < |a + b| && (a + b)[i].OpenSocket?
      ensures lo <= (a + b)[i].id < hi
    {
      if i < |a| { assert (a + b)[i] == a[i]; } else { assert (a + b)[i] == b[i - |a|]; }
    }
  }

  /** A transition's result: the new state and the effects it requests. */
  datatype Step = Step(next: State, cmds: seq<Command>)

  /** The state `App` mounts with, given what local storage already holds. */
  function Initial(eng: Engine, stored: Option<string>): (s: State)
    ensures s.mode == Local && s.gameId == "" && s.gameIdInput == "" && s.history == []
    ensures s.ws.None? && s.unclosed == {} && !s.polling
    ensures s.fen == eng.fen(s.game) && s.game == eng.start
    ensures s.color.None? && s.status == "" && s.games == [] && s.orientation == "white"
    ensures s.clientId == stored
  {
    State(Local, "", "", eng.start, eng.fen(eng.start), [], None, "", [],
          None, 0, {}, false, stored, "white")
  }

  predicate Live(r: ReadyState)
  {
    r == Connecting || r == Open
  }

  /** `wsRef.current?.readyState === WebSocket.OPEN` */
  predicate SocketOpen(s: State)
  {
    s.ws.Some? && s.ws.value.ready == Open
  }

  /** The sockets of `s` that are still live according to `wsRef`. */
  function LiveIds(s: State): set<nat>
  {
    if s.ws.Some? && Live(s.ws.value.ready) then {s.ws.value.id} else {}
  }

  /** The ownership invariant of the socket: the only socket that has not
      been asked to close is the current one, and only while it is live;
      and the current socket's id is below the counter the next socket
      takes, so a new socket never shares the current one's id. */
  ghost predicate Inv(s: State)
  {
    && s.unclosed == LiveIds(s)
    && (s.ws.Some? ==> s.ws.value.id < s.nextSocket)
  }

  /** `wsRef.current.close()`, leaving the ref in place. The WebSocket API
      makes `close()` a no-op on a socket that is already closing or closed,
      so only a live socket produces a `CloseSocket` command. */
  function CloseCurrent(s: State): (r: Step)
    ensures r.next.ws.None? <==> s.ws.None?
    ensures r.next.ws.Some? ==>
              r.next.ws.value.id == s.ws.value.id && !Live(r.next.ws.value.ready)
    ensures r.next.(ws := s.ws, unclosed := s.unclosed) == s
    ensures r.cmds == if s.ws.Some? && Live(s.ws.value.ready)
                      then [CloseSocket(s.ws.value.id)] else []
    ensures Inv(s) ==> Inv(r.next) && r.next.unclosed == {}
  {
    if s.ws.Some? && Live(s.ws.value.ready) then
      var id := s.ws.value.id;
      Step(s.(ws := Some(Socket(id, Closing)), unclosed := s.unclosed - {id}),
           [CloseSocket(id)])
    else Step(s, [])
  }

  /** A move the engine accepted: the position is replaced, the board shows
      the engine's FEN of it and the SAN joins the history. */
  function Advance(s: State, eng: Engine, p: Pos, san: string): (r: State)
    ensures r.history == s.history + [san]
    ensures r.game == p && r.fen == eng.fen(p)
    ensures r.(game := s.game, fen := s.fen, history := s.history) == s
  {
    s.(game := p, fen := eng.fen(p), history := s.history + [san])
  }
}
