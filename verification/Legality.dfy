/** Pseudo-legal moves, pins and checks. The engine decides legality from pins and rays without
    playing the move; the theorems here compare that with playing it. */
module Legality {
  import opened Types
  import opened Lookups
  import opened Rules

  // ---- attacks and kings ----

  /** `attackers_to`: every piece, either colour, that attacks `t` when `occ` blocks sliders. */
  function Attackers(cells: Cells, t: Square, occ: Bitboard): Bitboard {
    set s | s in cells && Attacks(cells[s], s, t, occ)
  }

  predicate Attacked(cells: Cells, t: Square, c: Color) {
    Attackers(cells, t, cells.Keys) * Side(cells, c) != {}
  }

  predicate IsKing(cells: Cells, c: Color, k: Square) {
    && Holds(cells, k, KING, c)
    && forall s :: s in cells && cells[s] == Piece(KING, c) ==> s == k
  }

  predicate OneKing(cells: Cells, c: Color) {
    exists k: Square :: IsKing(cells, c, k)
  }

  function KingSquare(cells: Cells, c: Color): (k: Square)
    requires OneKing(cells, c)
    ensures IsKing(cells, c, k)
  {
    var k :| IsKing(cells, c, k);
    assert k in OfKind(cells, KING) * Side(cells, c);
    Lowest(OfKind(cells, KING) * Side(cells, c))
  }

  predicate InCheck(cells: Cells, c: Color)
    requires OneKing(cells, c)
  {
    Attacked(cells, KingSquare(cells, c), Other(c))
  }

  // ---- what the generators produce when the king is not in check ----

  predicate Promotes(m: Move) {
    KNIGHT <= m.promotion <= QUEEN
  }

  /** The right, the empty squares and the unattacked squares castling to `to` asks for. */
  function CastlingRight(to: Square): bv4 {
    if to == G1 then 1 else if to == C1 then 2 else if to == G8 then 4 else 8
  }

  function CastlingGap(to: Square): Bitboard {
    if to == G1 then {F1, G1} else if to == C1 then {D1, C1, 1} else if to == G8 then {F8, G8} else {D8, C8, 57}
  }

  predicate CanCastle(cells: Cells, c: Color, rights: bv4, from: Square, to: Square) {
    && from == (if c == WHITE then E1 else E8)
    && to in (if c == WHITE then {G1, C1} else {G8, C8})
    && rights & CastlingRight(to) != 0
    && CastlingGap(to) !! cells.Keys
    && !Attacked(cells, from, Other(c)) && !Attacked(cells, RookTo(to), Other(c)) && !Attacked(cells, to, Other(c))
  }

  predicate Owns(cells: Cells, c: Color, s: Square) {
    s in cells && cells[s].color == c
  }

  predicate Reaches(cells: Cells, c: Color, m: Move) {
    Owns(cells, c, m.from) && Attacks(cells[m.from], m.from, m.to, cells.Keys)
  }

  predicate Pushes(cells: Cells, c: Color, m: Move) {
    Holds(cells, m.from, PAWN, c) && m.to == PawnShift(m.from, c) && m.to !in cells
  }

  predicate OnRank(s: Square, c: Color, r: int) {
    RelativeRank(Rank(s), c) == r
  }

  predicate LastRankPawn(cells: Cells, c: Color, s: Square) {
    Holds(cells, s, PAWN, c) && OnRank(s, c, 6)
  }

  predicate PseudoLegal(cells: Cells, c: Color, rights: bv4, ep: Option<Square>, m: Move) {
    match m.kind
    case Normal =>
      && m.promotion == PAWN && Owns(cells, c, m.from) && !LastRankPawn(cells, c, m.from) && m.to !in cells
      && if cells[m.from].kind == PAWN then m.to == PawnShift(m.from, c) else Reaches(cells, c, m)
    case Capture =>
      m.promotion == PAWN && Reaches(cells, c, m) && Owns(cells, Other(c), m.to) && !LastRankPawn(cells, c, m.from)
    case DoublePush =>
      && m.promotion == PAWN && Holds(cells, m.from, PAWN, c) && OnRank(m.from, c, 1)
      && PawnShift(m.from, c) !in cells && m.to == (if c == WHITE then m.from + 16 else m.from - 16) && m.to !in cells
    case EnPassant => m.promotion == PAWN && Holds(cells, m.from, PAWN, c) && ep == Some(m.to) && Reaches(cells, c, m)
    case Promotion => Promotes(m) && Pushes(cells, c, m) && OnRank(m.from, c, 6)
    case CapturePromotion => Promotes(m) && Reaches(cells, c, m) && LastRankPawn(cells, c, m.from) && Owns(cells, Other(c), m.to)
    case Castling => m.promotion == PAWN && CanCastle(cells, c, rights, m.from, m.to)
    case Untyped => false
  }

  // ---- well-formed positions ----

  predicate RightsHome(cells: Cells, rights: bv4) {
    && (rights & 1 != 0 ==> Holds(cells, E1, KING, WHITE) && Holds(cells, H1, ROOK, WHITE))
    && (rights & 2 != 0 ==> Holds(cells, E1, KING, WHITE) && Holds(cells, A1, ROOK, WHITE))
    && (rights & 4 != 0 ==> Holds(cells, E8, KING, BLACK) && Holds(cells, H8, ROOK, BLACK))
    && (rights & 8 != 0 ==> Holds(cells, E8, KING, BLACK) && Holds(cells, A8, ROOK, BLACK))
  }

  /** The en-passant square is empty, on the rank the enemy pawn crossed, with that pawn behind it. */
  predicate EpHome(cells: Cells, stm: Color, ep: Option<Square>) {
    ep.Some? ==>
      RelativeRank(Rank(ep.value), stm) == 5 && ep.value !in cells && Holds(cells, Behind(ep.value, stm), PAWN, Other(stm))
  }

  predicate PawnsInside(cells: Cells) {
    forall s :: s in cells && cells[s].kind == PAWN ==> 1 <= Rank(s) <= 6
  }

  predicate WellFormed(p: Pos) {
    && p.history != []
    && OneKing(p.cells, WHITE) && OneKing(p.cells, BLACK)
    && RightsHome(p.cells, p.Top().rights)
    && EpHome(p.cells, p.stm, p.Top().ep)
    && PawnsInside(p.cells)
  }

  predicate Playable(p: Pos, m: Move) {
    && p.history != []
    && PseudoLegal(p.cells, p.stm, p.Top().rights, p.Top().ep, m)
    && (m.to in p.cells ==> p.cells[m.to].kind != KING)
  }

  lemma PlayableIsWellTyped(p: Pos, m: Move)
    requires WellFormed(p) && Playable(p, m)
    ensures WellTyped(p.cells, p.stm, m)
  {
    if m.kind == Castling {
      CastlingIsWellTyped(p.cells, p.stm, p.Top().rights, m);
    }
  }

  lemma CastlingIsWellTyped(cells: Cells, c: Color, rights: bv4, m: Move)
    requires RightsHome(cells, rights) && m.kind == Castling && CanCastle(cells, c, rights, m.from, m.to)
    ensures WellTyped(cells, c, m)
  {
    assert m.to in CastlingGap(m.to) && RookTo(m.to) in CastlingGap(m.to);
  }

  // ---- every playable move keeps a position well-formed ----

  lemma KeepsOwnKing(cells: Cells, stm: Color, m: Move, k: Square)
    requires WellTyped(cells, stm, m) && IsKing(cells, stm, k)
    requires m.kind != Untyped
    ensures IsKing(NextCells(cells, stm, m), stm, if m.from == k && !m.kind.Promotion? && !m.kind.CapturePromotion? then m.to else k)
  {
  }

  lemma KeepsOtherKing(cells: Cells, stm: Color, m: Move, k: Square)
    requires WellTyped(cells, stm, m) && IsKing(cells, Other(stm), k) && m.to != k
    requires m.kind != Untyped
    ensures IsKing(NextCells(cells, stm, m), Other(stm), k)
  {
  }

  lemma KeepsHome(cells: Cells, stm: Color, m: Move, k: PieceType, c: Color, s: Square)
    requires WellTyped(cells, stm, m) && Holds(cells, s, k, c) && s != m.from && s != m.to && k != PAWN
    requires m.kind != Untyped
    requires m.kind == Castling ==> s != RookFrom(m.to)
    ensures Holds(NextCells(cells, stm, m), s, k, c)
  {
  }

  /** A castling right survives a move exactly if neither its king's nor its rook's home square was
      touched. */
  lemma SpoilerMeaning(rights: bv4, from: Square, to: Square)
    ensures
      var r := rights & Spoiler(from) & Spoiler(to);
      && (r & 1 != 0 <==> rights & 1 != 0 && E1 != from && E1 != to && H1 != from && H1 != to)
      && (r & 2 != 0 <==> rights & 2 != 0 && E1 != from && E1 != to && A1 != from && A1 != to)
      && (r & 4 != 0 <==> rights & 4 != 0 && E8 != from && E8 != to && H8 != from && H8 != to)
      && (r & 8 != 0 <==> rights & 8 != 0 && E8 != from && E8 != to && A8 != from && A8 != to)
  {
  }

  lemma KeepsRights(p: Pos, m: Move)
    requires WellFormed(p) && Playable(p, m) && WellTyped(p.cells, p.stm, m)
    ensures RightsHome(NextCells(p.cells, p.stm, m), p.Top().rights & Spoiler(m.from) & Spoiler(m.to))
  {
    SpoilerMeaning(p.Top().rights, m.from, m.to);
    var r := p.Top().rights & Spoiler(m.from) & Spoiler(m.to);
    if r & 1 != 0 {
      KeepsHome(p.cells, p.stm, m, KING, WHITE, E1);
      KeepsHome(p.cells, p.stm, m, ROOK, WHITE, H1);
    }
    if r & 2 != 0 {
      KeepsHome(p.cells, p.stm, m, KING, WHITE, E1);
      KeepsHome(p.cells, p.stm, m, ROOK, WHITE, A1);
    }
    if r & 4 != 0 {
      KeepsHome(p.cells, p.stm, m, KING, BLACK, E8);
      KeepsHome(p.cells, p.stm, m, ROOK, BLACK, H8);
    }
    if r & 8 != 0 {
      KeepsHome(p.cells, p.stm, m, KING, BLACK, E8);
      KeepsHome(p.cells, p.stm, m, ROOK, BLACK, A8);
    }
  }

  lemma KeepsEp(p: Pos, m: Move)
    requires WellFormed(p) && Playable(p, m) && WellTyped(p.cells, p.stm, m)
    ensures EpHome(NextCells(p.cells, p.stm, m), Other(p.stm), NextEp(p.cells, p.stm, m))
  {
  }

  lemma PawnLands(cells: Cells, c: Color, rights: bv4, ep: Option<Square>, m: Move)
    requires PseudoLegal(cells, c, rights, ep, m) && Holds(cells, m.from, PAWN, c)
    requires PawnsInside(cells) && !m.kind.Promotion? && !m.kind.CapturePromotion? && !m.kind.Castling?
    requires EpHome(cells, c, ep)
    ensures 1 <= Rank(m.to) <= 6
  {
    assert 1 <= Rank(m.from) <= 6;
  }

  lemma KeepsPawns(p: Pos, m: Move)
    requires WellFormed(p) && Playable(p, m) && WellTyped(p.cells, p.stm, m)
    ensures PawnsInside(NextCells(p.cells, p.stm, m))
  {
    hide PseudoLegal, Rank, CanCastle;
    if Holds(p.cells, m.from, PAWN, p.stm) && !m.kind.Promotion? && !m.kind.CapturePromotion? && !m.kind.Castling? {
      PawnLands(p.cells, p.stm, p.Top().rights, p.Top().ep, m);
    }
  }

  lemma KeepsKings(p: Pos, m: Move)
    requires WellFormed(p) && Playable(p, m) && WellTyped(p.cells, p.stm, m)
    ensures OneKing(NextCells(p.cells, p.stm, m), p.stm) && OneKing(NextCells(p.cells, p.stm, m), Other(p.stm))
  {
    KeepsOwnKing(p.cells, p.stm, m, KingSquare(p.cells, p.stm));
    KeepsOtherKing(p.cells, p.stm, m, KingSquare(p.cells, Other(p.stm)));
  }

  /** Every playable move keeps a position well-formed. */
  lemma MakeKeepsWellFormed(z: Randoms, p: Pos, m: Move)
    requires WellFormed(p) && Playable(p, m)
    ensures WellTyped(p.cells, p.stm, m) && WellFormed(Make(z, p, m))
  {
    PlayableIsWellTyped(p, m);
    var after := Make(z, p, m);
    assert OneKing(after.cells, WHITE) && OneKing(after.cells, BLACK) by {
      KeepsKings(p, m);
    }
    assert RightsHome(after.cells, after.Top().rights) by {
      KeepsRights(p, m);
    }
    assert EpHome(after.cells, after.stm, after.Top().ep) by {
      KeepsEp(p, m);
    }
    assert PawnsInside(after.cells) by {
      KeepsPawns(p, m);
    }
  }

  lemma NullKeepsWellFormed(z: Randoms, p: Pos)
    requires WellFormed(p)
    ensures WellFormed(MakeNull(z, p))
  {
  }

  /** The en-passant square of a new record is exactly the square a double push jumped over. */
  lemma EpIsCrossed(z: Randoms, p: Pos, m: Move, s: Square)
    requires p.history != [] && WellTyped(p.cells, p.stm, m)
    ensures Make(z, p, m).Top().ep == Some(s) <==> MoveTypeOf(p.cells, m) == DoublePush && InBetween(m.from, s, m.to)
  {
    if MoveTypeOf(p.cells, m) == DoublePush {
      OneFileApart(File(m.from), Rank(m.from), File(s), Rank(s), File(m.to), Rank(m.to));
    }
    hide NextCells, NextHash, MoveTypeOf, InBetween;
  }

  lemma OneFileApart(ff: int, rf: int, fs: int, rs: int, ft: int, rt: int)
    requires ff == ft && (rt == rf + 2 || rt == rf - 2)
    ensures Inside(ff, rf, fs, rs, ft, rt) <==> fs == ff && 2 * rs == rf + rt
  {
  }
}
