/** Position state and the meaning of making, undoing and skipping a move, on a mailbox board. */
module Rules {
  import opened Types
  import opened Folds
  import opened Lookups

  // ---- state ----

  /** One history record. Castling rights are the engine's four bits: K = 1, Q = 2, k = 4, q = 8. */
  datatype State = State(
    rights: bv4,
    ep: Option<Square>,
    previous: Option<Move>,
    captured: Option<PieceType>,
    kind: MoveType,
    hash: Word,
    halfmoves: int)

  datatype Pos = Pos(cells: Cells, stm: Color, fullmoves: int, history: seq<State>) {
    function Top(): State
      requires history != []
    {
      history[|history| - 1]
    }
  }

  // ---- Zobrist keys over an arbitrary random table ----

  type Randoms = int -> Word

  function PieceKey(z: Randoms, s: Square, p: Piece): Word {
    z((p.kind * 2 + (if p.color == WHITE then 1 else 0)) * 64 + s)
  }

  function CastlingKey(z: Randoms, rights: bv4): Word {
    Xor(Xor(Xor(if rights & 1 != 0 then z(768) else {}, if rights & 2 != 0 then z(769) else {}),
            if rights & 4 != 0 then z(770) else {}), if rights & 8 != 0 then z(771) else {})
  }

  function EnPassantKey(z: Randoms, s: Square): Word {
    z(772 + File(s))
  }

  function SideKey(z: Randoms): Word {
    z(780)
  }

  function KeyOf(z: Randoms): (Square, Piece) -> Word {
    (s: Square, p: Piece) => PieceKey(z, s, p)
  }

  /** Pawns of `c` that could capture onto the en-passant square. */
  function EpCandidates(cells: Cells, c: Color, ep: Square): Bitboard {
    OfKind(cells, PAWN) * Side(cells, c) * PawnAttacks(ep, Other(c))
  }

  /** The en-passant part of the key: present only when a pawn of `c` can use it. */
  function EpPart(z: Randoms, cells: Cells, c: Color, ep: Option<Square>): Word {
    if ep.Some? && EpCandidates(cells, c, ep.value) != {} then EnPassantKey(z, ep.value) else {}
  }

  function SidePart(z: Randoms, stm: Color): Word {
    if stm == WHITE then SideKey(z) else {}
  }

  /** The key computed from nothing but the position. */
  function FullHash(z: Randoms, cells: Cells, stm: Color, rights: bv4, ep: Option<Square>): Word {
    Xor(Xor(Xor(XorTotal(KeyOf(z), cells), EpPart(z, cells, stm, ep)), CastlingKey(z, rights)), SidePart(z, stm))
  }

  predicate HashOk(z: Randoms, p: Pos)
    requires p.history != []
  {
    p.Top().hash == FullHash(z, p.cells, p.stm, p.Top().rights, p.Top().ep)
  }

  // ---- moves ----

  function TypeOn(cells: Cells, s: Square): Option<PieceType> {
    if s in cells then Some(cells[s].kind) else None
  }

  /** `move_type_of`: the move's own tag, or the tag its squares imply when it carries none. */
  function MoveTypeOf(cells: Cells, m: Move): MoveType {
    if m.kind != Untyped then m.kind
    else if m.PromotionType().Some? then (if m.to in cells then CapturePromotion else Promotion)
    else if m.to in cells then Capture
    else if TypeOn(cells, m.from) == Some(PAWN) then
      var diff := Abs(m.to - m.from);
      if diff == 16 then DoublePush else if diff == 9 || diff == 7 then EnPassant else Normal
    else if TypeOn(cells, m.from) == Some(KING) && Abs(m.to - m.from) == 2 then Castling
    else Normal
  }

  function Behind(s: Square, c: Color): int {
    if c == WHITE then s - 8 else s + 8
  }

  /** Where castling to `to` takes the rook from and to. */
  function RookFrom(to: Square): Square {
    if to == C1 then A1 else if to == G1 then H1 else if to == C8 then A8 else H8
  }

  function RookTo(to: Square): Square {
    if to == C1 then D1 else if to == G1 then F1 else if to == C8 then D8 else F8
  }

  predicate Holds(cells: Cells, s: int, k: PieceType, c: Color) {
    0 <= s < 64 && s in cells && cells[s] == Piece(k, c)
  }

  /** The pieces a move of its kind needs are where it needs them. */
  predicate WellTyped(cells: Cells, stm: Color, m: Move) {
    && m.from in cells && cells[m.from].color == stm && m.from != m.to
    && match MoveTypeOf(cells, m)
       case Normal => m.to !in cells
       case Capture => m.to in cells && cells[m.to].color == Other(stm)
       case DoublePush => cells[m.from].kind == PAWN && m.to !in cells && m.to == Behind(m.from, Other(stm)) + Behind(0, Other(stm))
       case EnPassant => cells[m.from].kind == PAWN && m.to !in cells && Holds(cells, Behind(m.to, stm), PAWN, Other(stm))
       case Castling =>
         && cells[m.from].kind == KING && m.to in {C1, G1, C8, G8} && m.to !in cells
         && Holds(cells, RookFrom(m.to), ROOK, stm) && RookTo(m.to) !in cells && m.from != RookTo(m.to)
       case Promotion => cells[m.from].kind == PAWN && m.to !in cells && m.PromotionType().Some?
       case CapturePromotion =>
         cells[m.from].kind == PAWN && m.to in cells && cells[m.to].color == Other(stm) && m.PromotionType().Some?
       case Untyped => false
  }

  function Relocate(cells: Cells, from: Square, to: Square): Cells
    requires from in cells
  {
    Put(Remove(cells, from), to, cells[from])
  }

  function NextCells(cells: Cells, stm: Color, m: Move): Cells
    requires WellTyped(cells, stm, m)
  {
    match MoveTypeOf(cells, m)
    case Normal => Relocate(cells, m.from, m.to)
    case Capture => Relocate(Remove(cells, m.to), m.from, m.to)
    case DoublePush => Relocate(cells, m.from, m.to)
    case EnPassant => Remove(Relocate(cells, m.from, m.to), Behind(m.to, stm))
    case Castling => Relocate(Relocate(cells, m.from, m.to), RookFrom(m.to), RookTo(m.to))
    case Promotion => Put(Remove(cells, m.from), m.to, Piece(m.promotion, stm))
    case CapturePromotion => Put(Remove(Remove(cells, m.to), m.from), m.to, Piece(m.promotion, stm))
    case Untyped => cells
  }

  /** `castling_spoilers`: the rights that survive a move touching the square. */
  function Spoiler(s: Square): bv4 {
    if s == A1 then 13 else if s == E1 then 12 else if s == H1 then 14
    else if s == A8 then 7 else if s == E8 then 3 else if s == H8 then 11 else 15
  }

  function NextEp(cells: Cells, stm: Color, m: Move): Option<Square>
    requires WellTyped(cells, stm, m)
  {
    if MoveTypeOf(cells, m) == DoublePush then Some(PawnShift(m.from, stm)) else None
  }

  /** The key after a move the way `make_move` obtains it: patched, except that castling and
      en passant recompute it. */
  function NextHash(z: Randoms, cells: Cells, stm: Color, prev: State, m: Move, rights: bv4): Word
    requires WellTyped(cells, stm, m)
  {
    var kind := MoveTypeOf(cells, m);
    var after := NextCells(cells, stm, m);
    var ep := NextEp(cells, stm, m);
    if kind == EnPassant || kind == Castling then FullHash(z, after, Other(stm), rights, ep)
    else
      var mover := cells[m.from];
      var base := Xor(prev.hash, EpPart(z, cells, stm, prev.ep));
      var from, to := PieceKey(z, m.from, mover), PieceKey(z, m.to, mover);
      var patched :=
        match kind
        case Capture => Xor(Xor(Xor(base, PieceKey(z, m.to, cells[m.to])), from), to)
        case DoublePush => Xor(Xor(Xor(base, EpPart(z, after, Other(stm), ep)), from), to)
        case Promotion => Xor(Xor(base, from), PieceKey(z, m.to, Piece(m.promotion, stm)))
        case CapturePromotion =>
          Xor(Xor(Xor(base, PieceKey(z, m.to, cells[m.to])), from), PieceKey(z, m.to, Piece(m.promotion, stm)))
        case _ => Xor(Xor(base, from), to);
      Xor(Xor(Xor(patched, SideKey(z)), CastlingKey(z, prev.rights)), CastlingKey(z, rights))
  }

  function Make(z: Randoms, p: Pos, m: Move): Pos
    requires p.history != [] && WellTyped(p.cells, p.stm, m)
  {
    var prev := p.Top();
    var rights := prev.rights & Spoiler(m.from) & Spoiler(m.to);
    var captured := TypeOn(p.cells, m.to);
    var next := State(
      rights,
      NextEp(p.cells, p.stm, m),
      Some(m),
      captured,
      MoveTypeOf(p.cells, m),
      NextHash(z, p.cells, p.stm, prev, m, rights),
      if p.cells[m.from].kind == PAWN || captured.Some? then 0 else prev.halfmoves + 1);
    Pos(NextCells(p.cells, p.stm, m), Other(p.stm), p.fullmoves + (if p.stm == BLACK then 1 else 0), p.history + [next])
  }

  function MakeNull(z: Randoms, p: Pos): Pos
    requires p.history != []
  {
    var prev := p.Top();
    var next := State(
      prev.rights, None, None, None, Untyped,
      Xor(Xor(prev.hash, EpPart(z, p.cells, p.stm, prev.ep)), SideKey(z)),
      prev.halfmoves + 1);
    Pos(p.cells, Other(p.stm), p.fullmoves + (if p.stm == BLACK then 1 else 0), p.history + [next])
  }

  /** What `unmake_move` needs of the record it pops: the pieces the move left behind. */
  predicate Undoable(cells: Cells, stm: Color, m: Move, kind: MoveType, captured: Option<PieceType>) {
    && m.from != m.to && m.from !in cells && m.to in cells && cells[m.to].color == stm
    && match kind
       case Normal => true
       case Capture => captured.Some?
       case DoublePush => cells[m.to].kind == PAWN
       case EnPassant => cells[m.to].kind == PAWN && 0 <= Behind(m.to, stm) < 64 && Behind(m.to, stm) !in cells && Behind(m.to, stm) != m.from
       case Castling =>
         && cells[m.to].kind == KING && m.to in {C1, G1, C8, G8} && m.from != RookFrom(m.to)
         && Holds(cells, RookTo(m.to), ROOK, stm) && RookFrom(m.to) !in cells
       case Promotion => cells[m.to].kind == m.promotion && m.PromotionType().Some?
       case CapturePromotion => cells[m.to].kind == m.promotion && m.PromotionType().Some? && captured.Some?
       case Untyped => false
  }

  function PriorCells(cells: Cells, stm: Color, m: Move, kind: MoveType, captured: Option<PieceType>): Cells
    requires Undoable(cells, stm, m, kind, captured)
  {
    match kind
    case Capture => Put(Relocate(cells, m.to, m.from), m.to, Piece(captured.value, Other(stm)))
    case EnPassant => Relocate(Put(cells, Behind(m.to, stm), Piece(PAWN, Other(stm))), m.to, m.from)
    case Castling => Relocate(Relocate(cells, m.to, m.from), RookTo(m.to), RookFrom(m.to))
    case Promotion => Put(Remove(cells, m.to), m.from, Piece(PAWN, stm))
    case CapturePromotion => Put(Put(Remove(cells, m.to), m.from, Piece(PAWN, stm)), m.to, Piece(captured.value, Other(stm)))
    case Normal => Relocate(cells, m.to, m.from)
    case DoublePush => Relocate(cells, m.to, m.from)
    case Untyped => cells
  }

  predicate CanUnmake(p: Pos) {
    && |p.history| >= 2
    && (p.Top().previous.Some? ==>
          Undoable(p.cells, Other(p.stm), p.Top().previous.value, p.Top().kind, p.Top().captured))
  }

  function Unmake(p: Pos): Pos
    requires CanUnmake(p)
  {
    var top := p.Top();
    var stm := Other(p.stm);
    Pos(
      if top.previous.None? then p.cells else PriorCells(p.cells, stm, top.previous.value, top.kind, top.captured),
      stm,
      p.fullmoves - (if p.stm == WHITE then 1 else 0),
      p.history[..|p.history| - 1])
  }

  // ---- unmake undoes make ----

  lemma CellsRoundTrip(cells: Cells, stm: Color, m: Move)
    requires WellTyped(cells, stm, m)
    ensures
      var kind, captured := MoveTypeOf(cells, m), TypeOn(cells, m.to);
      var after := NextCells(cells, stm, m);
      Undoable(after, stm, m, kind, captured) && PriorCells(after, stm, m, kind, captured) == cells
  {
  }

  /** One make followed by one unmake gives back the boards, the side, the counter and the
      whole history, for each of the move kinds. */
  lemma UnmakeUndoesMake(z: Randoms, p: Pos, m: Move)
    requires p.history != [] && WellTyped(p.cells, p.stm, m)
    ensures CanUnmake(Make(z, p, m)) && Unmake(Make(z, p, m)) == p
  {
    CellsRoundTrip(p.cells, p.stm, m);
    assert Make(z, p, m).history[..|p.history|] == p.history;
  }

  lemma UnmakeUndoesNull(z: Randoms, p: Pos)
    requires p.history != []
    ensures CanUnmake(MakeNull(z, p)) && Unmake(MakeNull(z, p)) == p
  {
    assert MakeNull(z, p).history[..|p.history|] == p.history;
  }

  // ---- the patched key is the full key ----

  lemma RelocateHash(z: Randoms, cells: Cells, from: Square, to: Square)
    requires from in cells && to !in cells && from != to
    ensures XorTotal(KeyOf(z), Relocate(cells, from, to)) ==
      Xor(PieceKey(z, to, cells[from]), Xor(PieceKey(z, from, cells[from]), XorTotal(KeyOf(z), cells)))
  {
    XorRemove(KeyOf(z), cells, from);
    XorPut(KeyOf(z), Remove(cells, from), to, cells[from]);
  }

  /** The word algebra of a patch: the parts that went away cancel, the parts that came stay. */
  lemma PatchAlgebra(board: Word, ep: Word, castle: Word, side: Word, gone: Word, from: Word, to: Word, ep': Word, castle': Word, flip: Word)
    ensures
      var hash := Xor(Xor(Xor(board, ep), castle), side);
      var patched := Xor(Xor(Xor(Xor(Xor(hash, ep), gone), ep'), from), to);
      Xor(Xor(Xor(patched, flip), castle), castle') ==
      Xor(Xor(Xor(Xor(to, Xor(from, Xor(gone, board))), ep'), castle'), Xor(side, flip))
  {
  }

  lemma SideFlip(z: Randoms, stm: Color)
    ensures SidePart(z, Other(stm)) == Xor(SidePart(z, stm), SideKey(z))
  {
    XorLaws(SideKey(z), {}, {});
  }

  /** The stored key stays the key of the position: all eight move kinds. */
  lemma MakeKeepsHash(z: Randoms, p: Pos, m: Move)
    requires p.history != [] && WellTyped(p.cells, p.stm, m) && HashOk(z, p)
    ensures HashOk(z, Make(z, p, m))
  {
    var kind, f := MoveTypeOf(p.cells, m), KeyOf(z);
    if !kind.EnPassant? && !kind.Castling? {
      var prev, next, after := p.Top(), Make(z, p, m).Top(), NextCells(p.cells, p.stm, m);
      var board, ep, ep' := XorTotal(f, p.cells), EpPart(z, p.cells, p.stm, prev.ep), EpPart(z, after, Other(p.stm), next.ep);
      var base, mover := Xor(prev.hash, ep), p.cells[m.from];
      var gone := if m.to in p.cells then PieceKey(z, m.to, p.cells[m.to]) else {};
      var from := PieceKey(z, m.from, mover);
      var to := PieceKey(z, m.to, if kind.Promotion? || kind.CapturePromotion? then Piece(m.promotion, p.stm) else mover);
      assert Xor(base, {}) == base && Xor({}, board) == board && Xor(Xor(base, gone), {}) == Xor(base, gone) by {
        XorLaws(base, {}, {});
        XorLaws(board, {}, {});
        XorLaws(Xor(base, gone), {}, {});
      }
      assert XorTotal(f, after) == Xor(to, Xor(from, Xor(gone, board))) by {
        NextBoardHash(z, p.cells, p.stm, m, gone, from, to);
      }
      SideFlip(z, p.stm);
      PatchAlgebra(board, ep, CastlingKey(z, prev.rights), SidePart(z, p.stm), gone, from, to, ep', CastlingKey(z, next.rights), SideKey(z));
    }
  }

  lemma NextBoardHash(z: Randoms, cells: Cells, stm: Color, m: Move, gone: Word, from: Word, to: Word)
    requires WellTyped(cells, stm, m) && !MoveTypeOf(cells, m).EnPassant? && !MoveTypeOf(cells, m).Castling?
    requires gone == (if m.to in cells then PieceKey(z, m.to, cells[m.to]) else {}) && from == PieceKey(z, m.from, cells[m.from])
    requires to == PieceKey(z, m.to, if MoveTypeOf(cells, m).Promotion? || MoveTypeOf(cells, m).CapturePromotion?
                                     then Piece(m.promotion, stm) else cells[m.from])
    ensures XorTotal(KeyOf(z), NextCells(cells, stm, m)) == Xor(to, Xor(from, Xor(gone, XorTotal(KeyOf(z), cells))))
  {
    var f := KeyOf(z);
    XorLaws(XorTotal(f, cells), {}, {});
    match MoveTypeOf(cells, m) {
      case Capture =>
        XorRemove(f, cells, m.to);
        RelocateHash(z, Remove(cells, m.to), m.from, m.to);
      case Promotion =>
        XorRemove(f, cells, m.from);
        XorPut(f, Remove(cells, m.from), m.to, Piece(m.promotion, stm));
      case CapturePromotion =>
        XorRemove(f, cells, m.to);
        XorRemove(f, Remove(cells, m.to), m.from);
        XorPut(f, Remove(Remove(cells, m.to), m.from), m.to, Piece(m.promotion, stm));
      case _ =>
        RelocateHash(z, cells, m.from, m.to);
    }
  }

  lemma NullKeepsHash(z: Randoms, p: Pos)
    requires p.history != [] && HashOk(z, p)
    ensures HashOk(z, MakeNull(z, p))
  {
    var castle := CastlingKey(z, p.Top().rights);
    SideFlip(z, p.stm);
    NullAlgebra(XorTotal(KeyOf(z), p.cells), EpPart(z, p.cells, p.stm, p.Top().ep), castle, SidePart(z, p.stm), SideKey(z));
  }

  lemma NullAlgebra(board: Word, ep: Word, castle: Word, side: Word, flip: Word)
    ensures Xor(Xor(Xor(Xor(Xor(board, ep), castle), side), ep), flip) ==
      Xor(Xor(Xor(board, {}), castle), Xor(side, flip))
  {
  }
}
