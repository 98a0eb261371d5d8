/** `is_legal_move`, the gate for moves that no generator made: remembered, read from a book or
    predicted. What it lets through, against the legal move list. */
module Acceptance {
  import opened Types
  import opened Lookups
  import opened Rules
  import opened Legality
  import opened Pins
  import opened Evasions
  import opened Repetition
  import opened Draws
  import opened Runs
  import opened Positions
  import opened Generators
  import opened Histories
  import opened BookMoves

  // ---- what the gate tests ----

  /** The board part for a pawn: neither the home rank nor the last rank is looked at. */
  predicate PawnGoes(cells: Cells, c: Color, ep: Option<Square>, m: Move) {
    || (m.to == PawnShift(m.from, c) && m.to !in cells)
    || (m.to == m.from + 2 * PawnShift(0, c) && m.to !in cells && PawnShift(m.from, c) !in cells)
    || (Attacks(Piece(PAWN, c), m.from, m.to, cells.Keys) && (ep == Some(m.to) || Owns(cells, Other(c), m.to)))
  }

  predicate Goes(p: Pos, m: Move)
    requires p.history != [] && m.from in p.cells
  {
    || (p.cells[m.from].kind == KING && CanCastle(p.cells, p.stm, p.Top().rights, m.from, m.to) && m.promotion == PAWN)
    || if p.cells[m.from].kind == PAWN then PawnGoes(p.cells, p.stm, p.Top().ep, m) else Reaches(p.cells, p.stm, m)
  }

  /** Own piece, no own piece hit, promotions only by pawns and onto the last rank. */
  predicate Fitting(p: Pos, m: Move) {
    && Owns(p.cells, p.stm, m.from) && !Owns(p.cells, p.stm, m.to)
    && (m.PromotionType().Some? ==> p.cells[m.from].kind == PAWN && OnRank(m.to, p.stm, 7))
  }

  /** The move handed to the pin test: en passant is judged by the recorded square. */
  function Judged(p: Pos, m: Move): Move
    requires p.history != []
  {
    if m.kind == EnPassant && p.Top().ep.Some? then Move(m.from, p.Top().ep.value, m.promotion, EnPassant) else m
  }

  predicate Passes(p: Pos, m: Move)
    requires WellFormed(p) && (m.kind == EnPassant ==> p.Top().ep.Some?)
  {
    PassesTest(p.cells, p.stm, KingSquare(p.cells, p.stm), Judged(p, m), PinnedPieces(p.cells, p.stm, KingSquare(p.cells, p.stm)))
  }

  /** The pin test for a move marked en passant reads the recorded square; here there is none. */
  predicate ReadsNoSquare(p: Pos, m: Move)
    requires WellFormed(p)
  {
    m.kind == EnPassant && p.Top().ep.None? && Fitting(p, m) && Goes(p, m) && !InCheck(p.cells, p.stm)
  }

  /** A move of the legal move list, the kind aside. */
  ghost predicate Listed(p: Pos, m: Move)
    requires p.history != []
  {
    !Exhausted(p) && exists n :: Legal(p, n) && SameMove(n, m)
  }

  ghost predicate Accepts(p: Pos, m: Move)
    requires WellFormed(p) && !ReadsNoSquare(p, m)
  {
    Fitting(p, m) && Goes(p, m) && if InCheck(p.cells, p.stm) then Listed(p, m) else Passes(p, m)
  }

  // ---- the gate ----

  /** The castling list of the mover holds the move, the kind aside. */
  method InCastlingList(pos: Position, m: Move) returns (r: bool)
    requires pos.Valid()
    ensures r <==> CanCastle(pos.cells, pos.stm, pos.View().Top().rights, m.from, m.to) && m.promotion == PAWN
  {
    var ml := new MoveList();
    hide CanCastle, Positions.Position.Encodes;
    ghost var castlings := GenerateCastling(pos, ml, pos.stm);
    assert ml.items == castlings;
    r := Contains(ml.items, m);
    if CanCastle(pos.cells, pos.stm, pos.View().Top().rights, m.from, m.to) && m.promotion == PAWN {
      assert Move(m.from, m.to, PAWN, Castling) in castlings;
    }
  }

  /** `contains`: equality of moves leaves the kind out. */
  method Contains(list: seq<Move>, m: Move) returns (r: bool)
    ensures r <==> exists n :: n in list && SameMove(n, m)
  {
    for i := 0 to |list|
      invariant forall j :: 0 <= j < i ==> !SameMove(list[j], m)
    {
      if SameMove(list[i], m) {
        return true;
      }
    }
    return false;
  }

  method PawnMayGo(pos: Position, m: Move) returns (r: bool)
    requires pos.Valid() && Holds(pos.cells, m.from, PAWN, pos.stm)
    ensures r <==> PawnGoes(pos.cells, pos.stm, pos.View().Top().ep, m)
  {
    var c := pos.stm;
    var occ := pos.Occupancy();
    var ep := pos.history[pos.ply].ep;
    var attacks := PawnAttacks(m.from, c);
    PawnAttacksMeaning(m.from, c, m.to);
    assert m.to in pos.colorBb[Other(c)] <==> Owns(pos.cells, Other(c), m.to);
    hide PawnAttacks, Positions.Position.Encodes;
    if m.to == PawnShift(m.from, c) && m.to !in occ {
      return true;
    } else if m.to == m.from + 2 * PawnShift(0, c) && m.to !in occ && PawnShift(m.to, Other(c)) !in occ {
      return true;
    } else if ep.Some? && m.to == ep.value && ep.value in attacks {
      return true;
    }
    return m.to in attacks * pos.colorBb[Other(c)];
  }

  method PieceMayGo(pos: Position, m: Move) returns (r: bool)
    requires pos.Valid() && Owns(pos.cells, pos.stm, m.from) && pos.cells[m.from].kind != PAWN && !Owns(pos.cells, pos.stm, m.to)
    ensures r <==> Reaches(pos.cells, pos.stm, m)
  {
    var occ := pos.Occupancy();
    var kind := pos.PieceTypeOn(m.from);
    var own := pos.colorBb[pos.stm];
    NonPawnAttacksMeaning(Piece(kind.value, pos.stm), m.from, m.to, occ);
    assert m.to !in own;
    hide NonPawnAttacks, Attacks;
    r := m.to in NonPawnAttacks(kind.value, m.from, occ) - own;
  }

  /** The part before the check test. */
  method MayGo(pos: Position, m: Move) returns (r: bool)
    requires pos.Valid()
    ensures r <==> Fitting(pos.View(), m) && Goes(pos.View(), m)
  {
    hide Attacks, CanCastle, OfKind, Side;
    var color := pos.ColorOf(m.from);
    var target := pos.ColorOf(m.to);
    if color != Some(pos.stm) || target == color {
      return false;
    }
    var kind := pos.PieceTypeOn(m.from);
    if m.PromotionType().Some? && (kind.value != PAWN || !OnRank(m.to, pos.stm, 7)) {
      return false;
    }
    hide OnRank, Positions.Position.Encodes;
    if kind.value == KING {
      var castles := InCastlingList(pos, m);
      if castles {
        return true;
      }
    }
    if kind.value == PAWN {
      r := PawnMayGo(pos, m);
    } else {
      r := PieceMayGo(pos, m);
    }
  }

  /** `legal_move_list().contains(m)`. */
  method InLegalMoves(pos: Position, m: Move) returns (r: bool)
    requires pos.Valid() && WellFormed(pos.View())
    ensures r <==> Listed(pos.View(), m)
  {
    hide WellFormed, Legal, Exhausted, SameMove, FullHash;
    var ml := new MoveList();
    LegalMoveList(pos, ml);
    assert Exhausted(pos.View()) ==> Stuck(pos.View());
    r := Contains(ml.items, m);
  }

  /** `is_legal_generated_move` with the pins computed here. */
  method PassesPinTest(pos: Position, m: Move) returns (r: bool)
    requires pos.Valid() && WellFormed(pos.View()) && (m.kind == EnPassant ==> pos.View().Top().ep.Some?)
    ensures r <==> Passes(pos.View(), m)
  {
    EpBehind(pos.View());
    hide PassesTest, PinnedPieces, RightsHome, PawnsInside, EpHome, Positions.Position.Encodes, FullHash;
    var pinned := pos.PinnedPiecesOf(pos.stm);
    var judged := if m.kind == EnPassant then Move(m.from, pos.history[pos.ply].ep.value, m.promotion, EnPassant) else m;
    r := pos.IsLegalGenerated(judged, pinned);
  }

  /** `is_legal_move`; none where it reads an en-passant square that is not there. */
  method IsLegalMove(pos: Position, m: Move) returns (r: Option<bool>)
    requires pos.Valid() && WellFormed(pos.View())
    ensures r.None? <==> ReadsNoSquare(pos.View(), m)
    ensures r.Some? ==> (r.value <==> Accepts(pos.View(), m))
  {
    hide Fitting, Goes, Passes, Listed, RightsHome, PawnsInside, EpHome, Positions.Position.Encodes, FullHash;
    var goes := MayGo(pos, m);
    if !goes {
      return Some(false);
    }
    var k := pos.KingOf(pos.stm);
    var checkers := CheckersOf(pos, pos.stm, k);
    if checkers == {} {
      if m.kind == EnPassant && pos.history[pos.ply].ep.None? {
        return None;
      }
      var passes := PassesPinTest(pos, m);
      return Some(passes);
    }
    var listed := InLegalMoves(pos, m);
    return Some(listed);
  }

  lemma EpBehind(p: Pos)
    requires WellFormed(p)
    ensures p.Top().ep.Some? ==> 0 <= Behind(p.Top().ep.value, p.stm) < 64
  {
  }

  // ---- the gate against the legal moves ----

  /** Every pseudo-legal move goes through the tests before the check test. */
  lemma PseudoLegalGoes(p: Pos, n: Move, m: Move)
    requires WellFormed(p) && PseudoLegal(p.cells, p.stm, p.Top().rights, p.Top().ep, n) && SameMove(n, m)
    ensures Fitting(p, m) && Goes(p, m)
  {
  }

  /** In check the gate lets through the moves of the legal move list and nothing else. */
  lemma AcceptsInCheck(p: Pos, m: Move)
    requires WellFormed(p) && InCheck(p.cells, p.stm)
    ensures Accepts(p, m) <==> Listed(p, m)
  {
    hide Legal, PseudoLegal, SafeAfter, Fitting, Goes, SameMove, InCheck, Exhausted, RightsHome, EpHome, PawnsInside;
    if Listed(p, m) {
      var n :| Legal(p, n) && SameMove(n, m);
      LegalIsSafe(p, n);
      PseudoLegalGoes(p, n, m);
    }
  }

  /** The move with the kind `move_type_of` finds on the board. */
  function Reclassified(p: Pos, m: Move): Move {
    Move(m.from, m.to, if m.promotion == KING then PAWN else m.promotion, MoveTypeOf(p.cells, m.(kind := Untyped)))
  }

  predicate Classified(p: Pos, m: Move) {
    m == Reclassified(p, m)
  }

  /** What the gate does not look at: a pawn going two steps from another rank than its second, or
      reaching the last rank without promoting. */
  predicate Stray(p: Pos, m: Move) {
    Holds(p.cells, m.from, PAWN, p.stm) && m.kind != EnPassant &&
    (|| (&& m.to == m.from + 2 * PawnShift(0, p.stm) && m.to !in p.cells && PawnShift(m.from, p.stm) !in p.cells
         && !(m.kind == DoublePush && OnRank(m.from, p.stm, 1)))
     || (m.PromotionType().None? && OnRank(m.to, p.stm, 7)))
  }

  lemma PawnSteps(s: Square, t: Square, c: Color)
    ensures t == PawnShift(s, c) ==> File(t) == File(s) && RelativeRank(Rank(t), c) == RelativeRank(Rank(s), c) + 1
    ensures t == s + 2 * PawnShift(0, c) ==> File(t) == File(s) && RelativeRank(Rank(t), c) == RelativeRank(Rank(s), c) + 2
    ensures Attacks(Piece(PAWN, c), s, t, {}) ==>
      Abs(t - s) in {7, 9} && RelativeRank(Rank(t), c) == RelativeRank(Rank(s), c) + 1
  {
  }

  lemma PawnSight(s: Square, t: Square, c: Color, occ: Bitboard)
    ensures Attacks(Piece(PAWN, c), s, t, occ) <==> Attacks(Piece(PAWN, c), s, t, {})
  {
  }

  lemma KingSight(s: Square, t: Square, c: Color, occ: Bitboard)
    ensures Attacks(Piece(KING, c), s, t, occ) ==> Abs(t - s) in {1, 7, 8, 9}
  {
  }

  lemma CastlingSteps(cells: Cells, c: Color, rights: bv4, from: Square, to: Square)
    ensures CanCastle(cells, c, rights, from, to) ==> Abs(to - from) == 2 && to !in cells
  {
  }

  lemma EpRank(p: Pos, to: Square)
    requires WellFormed(p) && p.Top().ep == Some(to)
    ensures OnRank(to, p.stm, 5) && to !in p.cells
  {
  }

  lemma PawnGoesExactly(p: Pos, m: Move)
    requires WellFormed(p) && Classified(p, m) && !Stray(p, m) && Holds(p.cells, m.from, PAWN, p.stm)
    ensures Fitting(p, m) && Goes(p, m) <==> PseudoLegal(p.cells, p.stm, p.Top().rights, p.Top().ep, m)
  {
    PawnSteps(m.from, m.to, p.stm);
    PawnSight(m.from, m.to, p.stm, p.cells.Keys);
    if p.Top().ep == Some(m.to) {
      EpRank(p, m.to);
    }
    hide Attacks, CanCastle, Rank, File, RightsHome, EpHome, PawnsInside, OneKing;
  }

  lemma PieceGoesExactly(p: Pos, m: Move)
    requires WellFormed(p) && Classified(p, m) && !Holds(p.cells, m.from, PAWN, p.stm)
    ensures Fitting(p, m) && Goes(p, m) <==> PseudoLegal(p.cells, p.stm, p.Top().rights, p.Top().ep, m)
  {
    hide Attacks, CanCastle, Rank, File, RightsHome, EpHome, PawnsInside, OneKing, OnRank;
    KingSight(m.from, m.to, p.stm, p.cells.Keys);
    CastlingSteps(p.cells, p.stm, p.Top().rights, m.from, m.to);
    if CanCastle(p.cells, p.stm, p.Top().rights, m.from, m.to) {
      CastlerIsKing(p, m);
    } else if Owns(p.cells, p.stm, m.from) {
      assert p.cells[m.from].kind != PAWN;
    }
  }

  lemma CastlerIsKing(p: Pos, m: Move)
    requires WellFormed(p) && CanCastle(p.cells, p.stm, p.Top().rights, m.from, m.to)
    ensures Holds(p.cells, m.from, KING, p.stm)
  {
  }

  /** For a move of the right kind that is not stray, the tests before the check test are exactly
      pseudo-legality. */
  lemma GoesExactly(p: Pos, m: Move)
    requires WellFormed(p) && Classified(p, m) && !Stray(p, m)
    ensures Fitting(p, m) && Goes(p, m) <==> PseudoLegal(p.cells, p.stm, p.Top().rights, p.Top().ep, m)
  {
    hide Fitting, Goes, PseudoLegal, Classified, Stray, WellFormed;
    if Holds(p.cells, m.from, PAWN, p.stm) {
      PawnGoesExactly(p, m);
    } else {
      PieceGoesExactly(p, m);
    }
  }

  lemma StrayIsNotPseudoLegal(p: Pos, m: Move)
    requires WellFormed(p) && Stray(p, m) && Classified(p, m)
    ensures !PseudoLegal(p.cells, p.stm, p.Top().rights, p.Top().ep, m)
  {
    PawnSteps(m.from, m.to, p.stm);
    PawnSight(m.from, m.to, p.stm, p.cells.Keys);
    hide Attacks, CanCastle, Rank, File, RightsHome, EpHome, PawnsInside, OneKing;
  }

  /** Outside check a move is in the list exactly when it is pseudo-legal and passes the pin test. */
  lemma ListedOutsideCheck(p: Pos, m: Move)
    requires WellFormed(p) && !InCheck(p.cells, p.stm) && (m.kind == EnPassant ==> p.Top().ep.Some?)
    ensures Legal(p, m) <==> PseudoLegal(p.cells, p.stm, p.Top().rights, p.Top().ep, m) && Passes(p, m)
  {
    EpBehind(p);
    hide Attacks, CanCastle, Rank, File, RightsHome, EpHome, PawnsInside, PinnedPieces, FullRay, RookAttacks, BishopAttacks;
  }

  /** Castling marked with no promotion; the raw king bits, which mean none too, are not found in
      the castling list. */
  predicate KingBitsCastling(p: Pos, m: Move) {
    m.promotion == KING && Reclassified(p, m).kind == Castling
  }

  /** The board part does not look at the kind. */
  lemma GoesAnyKind(p: Pos, m: Move)
    requires WellFormed(p) && !KingBitsCastling(p, m)
    ensures Fitting(p, m) == Fitting(p, Reclassified(p, m))
    ensures Fitting(p, m) ==> Goes(p, m) == Goes(p, Reclassified(p, m))
  {
    var n := Reclassified(p, m);
    if Fitting(p, m) && m.promotion == KING && p.cells[m.from].kind == KING {
      CastlingSteps(p.cells, p.stm, p.Top().rights, m.from, m.to);
    }
    hide Attacks, CanCastle, OnRank, RightsHome, EpHome, PawnsInside, OneKing;
  }

  /** Outside check, whatever kind a move carries: the gate lets through exactly the moves that are
      pseudo-legal or stray once reclassified and that pass the pin test under the kind they carry. */
  lemma AcceptsExactly(p: Pos, m: Move)
    requires WellFormed(p) && !InCheck(p.cells, p.stm) && !ReadsNoSquare(p, m) && !KingBitsCastling(p, m)
    ensures
      var n := Reclassified(p, m);
      Accepts(p, m) <==>
      && (PseudoLegal(p.cells, p.stm, p.Top().rights, p.Top().ep, n) || (Stray(p, n) && Fitting(p, n) && Goes(p, n)))
      && (m.kind == EnPassant ==> p.Top().ep.Some?) && Passes(p, m)
  {
    var n := Reclassified(p, m);
    assert Classified(p, n);
    GoesAnyKind(p, m);
    if Stray(p, n) {
      StrayIsNotPseudoLegal(p, n);
    } else {
      GoesExactly(p, n);
    }
    hide Legal, PseudoLegal, Fitting, Goes, Passes, Stray, Classified, WellFormed, InCheck, Reclassified;
  }

  /** Outside check, for moves of the right kind, the gate lets through exactly the legal moves
      and the stray ones that pass the pin test. */
  lemma ClassifiedExactly(p: Pos, m: Move)
    requires WellFormed(p) && !InCheck(p.cells, p.stm) && !ReadsNoSquare(p, m) && Classified(p, m)
    ensures !Stray(p, m) ==> (Accepts(p, m) <==> Legal(p, m))
    ensures Stray(p, m) ==> !Legal(p, m) && (Accepts(p, m) <==> Fitting(p, m) && Goes(p, m) && Passes(p, m))
  {
    if m.kind == EnPassant && p.Top().ep.None? {
      NoSquareNotLegal(p, m);
    } else {
      ListedOutsideCheck(p, m);
    }
    AcceptsExactly(p, m);
    if Stray(p, m) {
      StrayIsNotPseudoLegal(p, m);
    }
    hide Legal, PseudoLegal, Fitting, Goes, Passes, Stray, WellFormed, InCheck, Reclassified;
  }

  lemma NoSquareNotLegal(p: Pos, m: Move)
    requires WellFormed(p) && m.kind == EnPassant && p.Top().ep.None?
    ensures !Legal(p, m) && !PseudoLegal(p.cells, p.stm, p.Top().rights, p.Top().ep, m)
  {
    LegalIsSafe(p, m);
    hide Legal, InCheck, SafeAfter, RightsHome, PawnsInside, Checkers;
  }

  /** Every legal move is let through, unless the game is exhausted and the mover in check. */
  lemma LegalIsAccepted(p: Pos, m: Move)
    requires WellFormed(p) && Legal(p, m)
    ensures !ReadsNoSquare(p, m)
    ensures Accepts(p, m) <==> !(InCheck(p.cells, p.stm) && Exhausted(p))
  {
    LegalIsSafe(p, m);
    EpOfLegal(p, m);
    if InCheck(p.cells, p.stm) {
      AcceptsInCheck(p, m);
      assert SameMove(m, m);
    } else {
      ListedOutsideCheck(p, m);
      PseudoLegalGoes(p, m, m);
    }
    hide Legal, PseudoLegal, SafeAfter, Fitting, Goes, Passes, WellFormed, InCheck, Exhausted, SameMove;
  }

  lemma EpOfLegal(p: Pos, m: Move)
    requires WellFormed(p) && PseudoLegal(p.cells, p.stm, p.Top().rights, p.Top().ep, m)
    ensures m.kind == EnPassant ==> p.Top().ep.Some?
  {
  }

  /** The kind of a move matters to the gate only when it says castling or en passant: any other
      gets the answer of the right kind, except that an en-passant capture is judged by the pin test
      alone. */
  lemma KindAside(p: Pos, m: Move)
    requires WellFormed(p) && !InCheck(p.cells, p.stm) && m.kind != EnPassant && m.kind != Castling && !KingBitsCastling(p, m)
    requires !ReadsNoSquare(p, Reclassified(p, m))
    ensures Reclassified(p, m).kind != EnPassant ==> (Accepts(p, m) <==> Accepts(p, Reclassified(p, m)))
    ensures Reclassified(p, m).kind == EnPassant ==>
      (Accepts(p, m) <==> PseudoLegal(p.cells, p.stm, p.Top().rights, p.Top().ep, Reclassified(p, m)) && Passes(p, m))
  {
    var n := Reclassified(p, m);
    GoesAnyKind(p, m);
    AcceptsExactly(p, m);
    if n.kind == Castling && Fitting(p, m) && Goes(p, m) {
      CastlerPasses(p, m);
      CastlerPasses(p, n);
    }
    hide Goes, Fitting, WellFormed, InCheck, PinnedPieces, Legal, PseudoLegal;
  }

  lemma CastlerPasses(p: Pos, m: Move)
    requires WellFormed(p) && Fitting(p, m) && Goes(p, m) && m.kind != EnPassant && Reclassified(p, m).kind == Castling
    ensures Passes(p, m)
  {
    KingSight(m.from, m.to, p.stm, p.cells.Keys);
    hide Attacks, Rank, File, PinnedPieces, FullRay, EpHome, PawnsInside;
    assert CanCastle(p.cells, p.stm, p.Top().rights, m.from, m.to);
    CastlerIsKing(p, m);
    assert !Attacked(p.cells, m.to, Other(p.stm));
  }

  // ---- when a move let through can be made ----

  /** The kind a move carries suits its squares, as `make_move` needs. */
  predicate TagFits(p: Pos, m: Move)
    requires p.history != [] && m.from in p.cells
  {
    match m.kind
    case Untyped => true
    case Normal => m.to !in p.cells
    case Capture => m.to in p.cells
    case DoublePush => p.cells[m.from].kind == PAWN && Abs(m.to - m.from) == 16
    case EnPassant => p.cells[m.from].kind == PAWN && p.Top().ep == Some(m.to)
    case Promotion => m.PromotionType().Some? && m.to !in p.cells
    case CapturePromotion => m.PromotionType().Some? && m.to in p.cells
    case Castling =>
      && p.cells[m.from].kind == KING && m.to in {C1, G1, C8, G8} && m.to !in p.cells
      && Holds(p.cells, RookFrom(m.to), ROOK, p.stm) && RookTo(m.to) !in p.cells
  }

  /** A move let through can be made if and only if the kind it carries suits its squares. */
  lemma MakeableExactly(p: Pos, m: Move)
    requires WellFormed(p) && !ReadsNoSquare(p, m) && Accepts(p, m)
    ensures WellTyped(p.cells, p.stm, m) <==> TagFits(p, m)
  {
    if p.cells[m.from].kind == PAWN {
      PawnMakeable(p, m);
    } else {
      PieceMakeable(p, m);
    }
    hide Fitting, Goes, WellTyped, TagFits, WellFormed;
  }

  lemma PawnMakeable(p: Pos, m: Move)
    requires WellFormed(p) && Fitting(p, m) && Goes(p, m) && p.cells[m.from].kind == PAWN
    ensures WellTyped(p.cells, p.stm, m) <==> TagFits(p, m)
  {
    PawnSteps(m.from, m.to, p.stm);
    PawnSight(m.from, m.to, p.stm, p.cells.Keys);
    if p.Top().ep == Some(m.to) {
      EpRank(p, m.to);
    }
    hide Attacks, CanCastle, Rank, File, RightsHome, PawnsInside, OneKing;
  }

  lemma PieceMakeable(p: Pos, m: Move)
    requires WellFormed(p) && Fitting(p, m) && Goes(p, m) && p.cells[m.from].kind != PAWN
    ensures WellTyped(p.cells, p.stm, m) <==> TagFits(p, m)
  {
    PieceSteps(p, m);
    if p.cells[m.from].kind == KING && Abs(m.to - m.from) == 2 {
      CastlerFits(p, m);
    }
    PieceTags(p, m);
    hide Goes, Fitting, RookFrom, RookTo, CanCastle, WellFormed, WellTyped, TagFits, Holds;
  }

  lemma PieceTags(p: Pos, m: Move)
    requires p.history != [] && Fitting(p, m) && p.cells[m.from].kind != PAWN && m.from != m.to && m.PromotionType().None?
    requires p.cells[m.from].kind == KING && Abs(m.to - m.from) == 2 ==>
      m.to in {C1, G1, C8, G8} && m.to !in p.cells && Holds(p.cells, RookFrom(m.to), ROOK, p.stm) && RookTo(m.to) !in p.cells
    ensures WellTyped(p.cells, p.stm, m) <==> TagFits(p, m)
  {
    hide Holds, RookFrom, RookTo, OnRank;
  }

  /** A piece other than a pawn leaves its square, and a king steps by one or castles. */
  lemma PieceSteps(p: Pos, m: Move)
    requires WellFormed(p) && Fitting(p, m) && Goes(p, m) && p.cells[m.from].kind != PAWN
    ensures m.from != m.to && m.PromotionType().None?
    ensures p.cells[m.from].kind == KING && Abs(m.to - m.from) == 2 ==>
      CanCastle(p.cells, p.stm, p.Top().rights, m.from, m.to) && m.to !in p.cells
  {
    KingSight(m.from, m.to, p.stm, p.cells.Keys);
    NotInPlace(p.cells[m.from], m.from, m.to, p.cells.Keys);
    CastlingSteps(p.cells, p.stm, p.Top().rights, m.from, m.to);
    hide Attacks, CanCastle, RightsHome, EpHome, PawnsInside, OneKing, OnRank;
  }

  lemma CastlerFits(p: Pos, m: Move)
    requires WellFormed(p) && CanCastle(p.cells, p.stm, p.Top().rights, m.from, m.to)
    ensures m.to in {C1, G1, C8, G8} && Holds(p.cells, RookFrom(m.to), ROOK, p.stm) && RookTo(m.to) !in p.cells
    ensures Holds(p.cells, m.from, KING, p.stm)
  {
    CastlingIsWellTyped(p.cells, p.stm, p.Top().rights, Move(m.from, m.to, PAWN, Castling));
    hide RightsHome, EpHome, PawnsInside, CanCastle;
  }

  lemma NotInPlace(x: Piece, s: Square, t: Square, occ: Bitboard)
    ensures Attacks(x, s, t, occ) ==> s != t
  {
  }

  /** A move let through under the kind its squares mean can be made. */
  lemma ClassifiedIsMakeable(p: Pos, m: Move)
    requires WellFormed(p) && Classified(p, m) && !ReadsNoSquare(p, m) && Accepts(p, m)
    ensures WellTyped(p.cells, p.stm, m)
  {
    hide TagFits, WellTyped, Classified, Fitting, Goes, WellFormed, Passes, Listed;
    MakeableExactly(p, m);
    FittingStands(p, m);
    if p.cells[m.from].kind == PAWN {
      PawnTagFits(p, m);
    } else {
      PieceTagFits(p, m);
    }
  }

  lemma FittingStands(p: Pos, m: Move)
    requires Fitting(p, m)
    ensures Owns(p.cells, p.stm, m.from)
  {
  }

  lemma PawnTagFits(p: Pos, m: Move)
    requires WellFormed(p) && Classified(p, m) && Fitting(p, m) && Goes(p, m) && p.cells[m.from].kind == PAWN
    ensures TagFits(p, m)
  {
    PawnSteps(m.from, m.to, p.stm);
    PawnSight(m.from, m.to, p.stm, p.cells.Keys);
    hide Attacks, CanCastle, Rank, File, RightsHome, EpHome, PawnsInside, OneKing, OnRank;
  }

  lemma PieceTagFits(p: Pos, m: Move)
    requires WellFormed(p) && Classified(p, m) && Fitting(p, m) && Goes(p, m) && p.cells[m.from].kind != PAWN
    ensures TagFits(p, m)
  {
    FittingStands(p, m);
    PieceSteps(p, m);
    PieceKinds(p, m);
    if p.cells[m.from].kind == KING && Abs(m.to - m.from) == 2 {
      CastlerFits(p, m);
    }
    hide Classified, Fitting, Goes, Holds, RookFrom, RookTo, CanCastle, WellFormed;
  }

  lemma PieceKinds(p: Pos, m: Move)
    requires Classified(p, m) && Owns(p.cells, p.stm, m.from) && p.cells[m.from].kind != PAWN && m.PromotionType().None?
    ensures m.kind == if m.to in p.cells then Capture else if p.cells[m.from].kind == KING && Abs(m.to - m.from) == 2 then Castling else Normal
  {
  }

  /** A legal capture that carries the kind of a plain move is let through outside check, and
      cannot be made. */
  lemma MarkedPlainIsAccepted(p: Pos, n: Move)
    requires WellFormed(p) && !InCheck(p.cells, p.stm) && Legal(p, n) && n.kind == Capture
    ensures Accepts(p, n.(kind := Normal)) && !WellTyped(p.cells, p.stm, n.(kind := Normal))
  {
    LegalIsSafe(p, n);
    LegalIsAccepted(p, n);
    assert n.to in p.cells;
    hide PseudoLegal, Legal, SafeAfter, PinnedPieces, FullRay, InCheck, WellFormed, CanCastle, Attacks;
  }

  // ---- book moves ----

  /** A pinned pawn that takes en passant leaves the king to a slider the test sees. */
  lemma EpPinned(cells: Cells, c: Color, k: Square, n: Move)
    requires WellTyped(cells, c, n) && n.kind == EnPassant && IsKing(cells, c, k)
    requires PassesTest(cells, c, k, n, {}) && Clear(n.from, n.to, cells.Keys)
    ensures n.from !in PinnedPieces(cells, c, k) || n.to in FullRay(k, n.from)
  {
    assert Holds(cells, Behind(n.to, c), PAWN, Other(c));
    hide NextCells, PinnedPieces, FullRay, PassesTest, MoveTypeOf, EpOccupancy, Attacks, Clear, LeavesPin;
    var after := NextCells(cells, c, n);
    EpTestMeaning(cells, c, k, n);
    EpShape(cells, c, n);
    PinnedOffLine(cells, c, n.from, n.to, k);
    if s :| LeavesPin(cells, c, n.from, n.to, k, s) {
      PinnerSees(cells, c, after, n.from, n.to, Behind(n.to, c), k, s);
      assert false;
    }
  }

  /** The slider that pinned a pawn sees the king once the pawn and its victim are gone. */
  lemma PinnerSees(cells: Cells, c: Color, after: Cells, from: Square, to: Square, victim: int, k: Square, s: Square)
    requires LeavesPin(cells, c, from, to, k, s) && Holds(cells, victim, PAWN, Other(c)) && Owns(cells, c, from)
    requires forall x :: x != to ==> (x in after <==> x in cells && x != from && x != victim) && (x in after ==> after[x] == cells[x])
    ensures Owns(after, Other(c), s) && Slider(after[s]) && Attacks(after[s], s, k, after.Keys)
  {
    Unshielded(cells, after, from, to, k, s);
    hide Clear, InBetween, PinsAlone, RookLine, BishopLine;
  }

  lemma Unshielded(cells: Cells, after: Cells, from: Square, to: Square, k: Square, s: Square)
    requires PinsAlone(cells, s, k, from) && !InBetween(s, to, k) && from !in after
    requires forall x :: x in after && x != to ==> x in cells
    ensures Clear(s, k, after.Keys)
  {
    hide InBetween;
    SeenThroughNothing(after.Keys, s, k);
    assert to !in Between(s, k) && Between(s, k) * after.Keys <= {from};
  }

  lemma EpClear(cells: Cells, s: Square, t: Square, c: Color)
    requires Attacks(Piece(PAWN, c), s, t, cells.Keys)
    ensures Clear(s, t, cells.Keys)
  {
  }

  /** A legal en-passant capture read back from a book is let through as a plain pawn move, and
      made as one: the captured pawn stays on the board. */
  lemma BookEnPassant(p: Pos, n: Move)
    requires WellFormed(p) && Legal(p, n) && n.kind == EnPassant && !(InCheck(p.cells, p.stm) && Exhausted(p))
    ensures
      var m := n.(kind := Normal);
      && Decode(p.cells, Encode(n)) == Some(m) && Accepts(p, m) && WellTyped(p.cells, p.stm, m) && WellTyped(p.cells, p.stm, n)
      && Holds(NextCells(p.cells, p.stm, m), Behind(n.to, p.stm), PAWN, Other(p.stm))
      && NextCells(p.cells, p.stm, m) == NextCells(p.cells, p.stm, n)[Behind(n.to, p.stm) := Piece(PAWN, Other(p.stm))]
  {
    var m := n.(kind := Normal);
    LegalIsSafe(p, n);
    LegalIsAccepted(p, n);
    DecodeEncoded(p.cells, p.stm, p.Top().rights, p.Top().ep, n);
    PseudoLegalGoes(p, n, m);
    PlainEnPassant(p, n);
    if InCheck(p.cells, p.stm) {
      AcceptsInCheck(p, m);
      assert SameMove(n, m);
    } else {
      PinTestOfEp(p, n);
    }
    hide PseudoLegal, Legal, SafeAfter, PinnedPieces, FullRay, InCheck, Passes, WellTyped, NextCells, Goes, Fitting, Exhausted, RightsHome, EpHome, PawnsInside;
  }

  lemma PlainEnPassant(p: Pos, n: Move)
    requires WellFormed(p) && PseudoLegal(p.cells, p.stm, p.Top().rights, p.Top().ep, n) && n.kind == EnPassant
    ensures
      var m := n.(kind := Normal);
      && WellTyped(p.cells, p.stm, m) && WellTyped(p.cells, p.stm, n)
      && Holds(NextCells(p.cells, p.stm, m), Behind(n.to, p.stm), PAWN, Other(p.stm))
      && NextCells(p.cells, p.stm, m) == NextCells(p.cells, p.stm, n)[Behind(n.to, p.stm) := Piece(PAWN, Other(p.stm))]
  {
    PseudoLegalIsWellTyped(p.cells, p.stm, p.Top().rights, p.Top().ep, n);
    hide Attacks, RightsHome, PawnsInside, OneKing;
  }

  lemma PinTestOfEp(p: Pos, n: Move)
    requires WellFormed(p) && !InCheck(p.cells, p.stm) && Legal(p, n) && n.kind == EnPassant
    ensures Passes(p, n.(kind := Normal))
  {
    hide Attacks, RightsHome, PawnsInside, EpHome, Legal, PinnedPieces, FullRay, SafeAfter, NextCells, WellTyped, Clear, PassesTest, OneKing, PseudoLegal, Passes;
    var k := KingSquare(p.cells, p.stm);
    LegalIsSafe(p, n);
    EpOfLegal(p, n);
    ListedOutsideCheck(p, n);
    EpParts(p, n);
    PseudoLegalIsWellTyped(p.cells, p.stm, p.Top().rights, p.Top().ep, n);
    EpPinned(p.cells, p.stm, k, n);
    PlainPasses(p, n);
  }

  lemma EpParts(p: Pos, n: Move)
    requires WellFormed(p) && PseudoLegal(p.cells, p.stm, p.Top().rights, p.Top().ep, n) && n.kind == EnPassant
    ensures p.Top().ep == Some(n.to) && 0 <= Behind(n.to, p.stm) < 64 && n.from != KingSquare(p.cells, p.stm)
    ensures Clear(n.from, n.to, p.cells.Keys)
    ensures Passes(p, n) ==> PassesTest(p.cells, p.stm, KingSquare(p.cells, p.stm), n, {})
  {
    EpClear(p.cells, n.from, n.to, p.stm);
    EpBehind(p);
    hide Attacks, Clear, RightsHome, PawnsInside, EpHome, OneKing, RookAttacks, BishopAttacks, EpOccupancy, PinnedPieces;
  }

  lemma PlainPasses(p: Pos, n: Move)
    requires WellFormed(p) && n.from != KingSquare(p.cells, p.stm)
    requires n.from !in PinnedPieces(p.cells, p.stm, KingSquare(p.cells, p.stm)) || n.to in FullRay(KingSquare(p.cells, p.stm), n.from)
    ensures Passes(p, n.(kind := Normal))
  {
    hide WellFormed, PinnedPieces, FullRay;
  }

  /** A book entry that encodes a legal move passes the gate, as itself or, for an en-passant
      capture, as a plain pawn move. */
  lemma BookMoveIsAccepted(p: Pos, n: Move)
    requires WellFormed(p) && Legal(p, n) && !(InCheck(p.cells, p.stm) && Exhausted(p))
    ensures
      var m := if n.kind == EnPassant then n.(kind := Normal) else n;
      Decode(p.cells, Encode(n)) == Some(m) && !ReadsNoSquare(p, m) && Accepts(p, m)
  {
    LegalIsSafe(p, n);
    LegalIsAccepted(p, n);
    DecodeEncoded(p.cells, p.stm, p.Top().rights, p.Top().ep, n);
    if n.kind == EnPassant {
      BookEnPassant(p, n);
    }
    hide Legal, PseudoLegal, SafeAfter, Fitting, Goes, Passes, InCheck, Exhausted;
  }

  // ---- a move that is let through although it is not legal ----

  /** White: king a1, pawn e3. Black: king a8. */
  const ADVANCED_PAWN: Cells := map[0 := Piece(KING, WHITE), 20 := Piece(PAWN, WHITE), 56 := Piece(KING, BLACK)]

  const TWO_MORE_STEPS: Move := Move(20, 36, PAWN, DoublePush)

  function QuietRoot(z: Randoms): Pos {
    Pos(ADVANCED_PAWN, WHITE, 1, [State(0, None, None, None, Untyped, FullHash(z, ADVANCED_PAWN, WHITE, 0, None), 0)])
  }

  lemma NobodyAttacked()
    ensures !Attacked(ADVANCED_PAWN, 0, BLACK) && !Attacked(ADVANCED_PAWN, 56, WHITE)
  {
    UnattackedMeaning(ADVANCED_PAWN, 0, BLACK);
    UnattackedMeaning(ADVANCED_PAWN, 56, WHITE);
    assert !Attacks(Piece(KING, BLACK), 56, 0, ADVANCED_PAWN.Keys) && !Attacks(Piece(KING, WHITE), 0, 56, ADVANCED_PAWN.Keys);
    assert !Attacks(Piece(PAWN, WHITE), 20, 56, ADVANCED_PAWN.Keys);
    hide Attacks;
  }

  lemma QuietKings()
    ensures IsKing(ADVANCED_PAWN, WHITE, 0) && IsKing(ADVANCED_PAWN, BLACK, 56) && PawnsInside(ADVANCED_PAWN)
    ensures 20 !in PinnedPieces(ADVANCED_PAWN, WHITE, 0)
  {
    hide FullRay, Attacks;
  }

  /** A pawn on its third rank may take two steps as far as the gate is concerned. */
  lemma StrayIsAccepted(z: Randoms)
    ensures Sound(QuietRoot(z)) && HashOk(z, QuietRoot(z))
    ensures Accepts(QuietRoot(z), TWO_MORE_STEPS) && !Legal(QuietRoot(z), TWO_MORE_STEPS)
  {
    hide Attacked, IsKing, PawnsInside, FullHash, Legal, PinnedPieces;
    NobodyAttacked();
    QuietKings();
    TheKing(ADVANCED_PAWN, WHITE, 0);
    TheKing(ADVANCED_PAWN, BLACK, 56);
    ClassifiedExactly(QuietRoot(z), TWO_MORE_STEPS);
  }
}
