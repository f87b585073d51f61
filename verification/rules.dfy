/** The chess rules engine (chess.js), seen only through the operations the
    client calls. Positions are an abstract type; the engine is a value whose
    fields are the engine's operations, so that every property of the client
    holds for any engine, not just for the real rules of chess. */
module Rules {
  import opened Prelude

  /** A `Chess` object: a position together with whatever the engine keeps
      to undo moves. The client never looks inside it. */
  type Pos(==, !new)

  /** The side to move, as `turn()` reports it: `'w'` or `'b'`. */
  datatype Side = W | B

  /** `new Chess(fen)`: either a position or the message of the error the
      constructor throws for a FEN it cannot read. */
  datatype Parsed = Parsed(pos: Pos) | Invalid(reason: string)

  /** `move(...)`: a legal move gives the new position and the move's SAN;
      otherwise the call returns `null` or throws, and the position stays. */
  datatype MoveResult = Moved(pos: Pos, san: string) | NoMove | Threw

  /** The engine operations the client uses. */
  datatype Engine = Engine(
    parse: string -> Parsed,                             // new Chess(fen)
    turn: Pos -> Side,                                   // turn()
    apply: (Pos, string, string, string) -> MoveResult,  // move({from, to, promotion})
    applyText: (Pos, string) -> MoveResult,              // move(notation)
    undo: Pos -> Pos,                                    // undo(), then the object's new state
    fen: Pos -> string,                                  // fen()
    start: Pos                                           // new Chess()
  )

  /** A piece drag on the board: source and target squares. */
  datatype Drag = Drag(from: string, to: string)

  /** Where a sequence of drags leads: the final position and the SAN of
      every drag the engine accepted, in order. */
  datatype Played = Played(pos: Pos, sans: seq<string>)

  /** The reference meaning of playing `drags` from `p` with promotion to a
      queen: legal drags advance the position and record their SAN, the
      others are skipped. */
  function Replay(eng: Engine, p: Pos, drags: seq<Drag>): (r: Played)
    ensures |r.sans| <= |drags|
    decreases |drags|
  {
    if drags == [] then Played(p, [])
    else
      match eng.apply(p, drags[0].from, drags[0].to, "q")
      case Moved(q, san) =>
        var rest := Replay(eng, q, drags[1..]);
        Played(rest.pos, [san] + rest.sans)
      case _ => Replay(eng, p, drags[1..])
  }

  /** The engine's `undo()` takes back the move just made. chess.js keeps
      the history it needs for this inside the `Chess` object. */
  ghost predicate UndoReverts(eng: Engine)
  {
    forall p, from, to, promo {:trigger eng.apply(p, from, to, promo)} ::
      eng.apply(p, from, to, promo).Moved? ==>
        eng.undo(eng.apply(p, from, to, promo).pos) == p
  }
}
