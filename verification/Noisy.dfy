/** What quiescence search asks of a position: the moves it tries, whether they are legal, whether
    the position is drawn, and what an exchange nets, all read off the boards. */
module Noisy {
  import opened Types
  import opened Lookups
  import opened Rules
  import opened Legality
  import opened Pins
  import opened Evasions
  import opened Repetition
  import opened Draws
  import opened Runs
  import opened Positions
  import opened Generators
  import opened See

  // ---- the moves tried ----

  /** What quiescence search generates: evasions in check, else captures and promotions. */
  predicate Tried(p: Pos, m: Move)
    requires WellFormed(p)
  {
    var k := KingSquare(p.cells, p.stm);
    Generated(p, k, m) && (Checkers(p.cells, p.stm, k) != {} || IsCapture(m) || m.kind == Promotion)
  }

  lemma OnceEach(list: seq<Move>, m: Move)
    requires NoRepeats(list)
    ensures multiset(list)[m] == if m in list then 1 else 0
  {
    if m in list {
      var i :| 0 <= i < |list| && list[i] == m;
      assert list == list[..i] + [m] + list[i + 1..];
      assert m !in list[..i] && m !in list[i + 1..];
      assert multiset(list) == multiset(list[..i]) + multiset([m]) + multiset(list[i + 1..]);
    }
  }

  /** `generate_promotions`, then `generate_capture_moves`: capture promotions come out twice. */
  method NoisyMoves(pos: Position, ml: MoveList)
    requires pos.Valid()
    modifies ml
    ensures forall m :: m in ml.items <==>
      PseudoLegal(pos.cells, pos.stm, pos.View().Top().rights, pos.View().Top().ep, m) && (IsCapture(m) || m.kind == Promotion)
    ensures forall m :: m in ml.items ==> multiset(ml.items)[m] == if m.kind == CapturePromotion then 2 else 1
  {
    hide PseudoLegal, TakesAndPromotes, PawnTakes, TakesEnPassant, PieceTakes, QuietPromotion, NoRepeats, Positions.Position.Encodes;
    ml.Clear();
    ghost var promotions := CapturePromotions(pos, ml, pos.stm);
    ghost var pushes := QuietPromotions(pos, ml, pos.stm);
    ghost var captures := CaptureMoves(pos, ml, pos.stm);
    Regroup([], promotions, pushes, captures);
    NoisyLists(pos.View(), promotions, pushes, captures);
  }

  lemma NoisyLists(p: Pos, promotions: seq<Move>, pushes: seq<Move>, captures: seq<Move>)
    requires p.history != []
    requires NoRepeats(promotions) && forall m :: m in promotions <==> TakesAndPromotes(p.cells, p.stm, m)
    requires NoRepeats(pushes) && forall m :: m in pushes <==> QuietPromotion(p.cells, p.stm, m)
    requires NoRepeats(captures) && forall m :: m in captures <==>
      || TakesAndPromotes(p.cells, p.stm, m) || PawnTakes(p.cells, p.stm, m)
      || TakesEnPassant(p.cells, p.stm, p.Top().ep, m)
      || exists k: PieceType :: k != PAWN && PieceTakes(p.cells, p.stm, k, m)
    ensures
      var list := promotions + pushes + captures;
      && (forall m :: m in list <==>
            PseudoLegal(p.cells, p.stm, p.Top().rights, p.Top().ep, m) && (IsCapture(m) || m.kind == Promotion))
      && forall m :: m in list ==> multiset(list)[m] == if m.kind == CapturePromotion then 2 else 1
  {
    var list := promotions + pushes + captures;
    CasesApart(p.cells, p.stm, p.Top().rights, p.Top().ep);
    hide PseudoLegal, TakesAndPromotes, PawnTakes, TakesEnPassant, PieceTakes, QuietPromotion, SinglePush, TwoSteps, Castles, PieceQuiet, NoRepeats;
    forall m: Move
      ensures m in list <==> PseudoLegal(p.cells, p.stm, p.Top().rights, p.Top().ep, m) && (IsCapture(m) || m.kind == Promotion)
      ensures m in list ==> multiset(list)[m] == if m.kind == CapturePromotion then 2 else 1
    {
      CasesCover(p.cells, p.stm, p.Top().rights, p.Top().ep, m);
      OnceEach(promotions, m);
      OnceEach(pushes, m);
      OnceEach(captures, m);
      assert multiset(list) == multiset(promotions) + multiset(pushes) + multiset(captures);
    }
  }

  /** `gen_qs_moves_into`. */
  method QuiescenceMoves(pos: Position, ml: MoveList)
    requires pos.Valid() && WellFormed(pos.View())
    modifies ml
    ensures forall m :: m in ml.items <==> Tried(pos.View(), m)
  {
    hide RightsHome, EpHome, PawnsInside, PseudoLegal, Evasion, Positions.Position.Encodes, FullHash;
    var k := pos.KingOf(pos.stm);
    var checkers := CheckersOf(pos, pos.stm, k);
    if checkers != {} {
      CheckEvasions(pos, ml, pos.stm);
    } else {
      NoisyMoves(pos, ml);
    }
  }

  /** On the moves tried, the legality test alone decides. */
  lemma TriedIsTested(p: Pos, m: Move)
    requires WellFormed(p) && Tried(p, m)
    ensures m.from in p.cells
    ensures m.kind == EnPassant ==> p.Top().ep == Some(m.to) && 0 <= Behind(m.to, p.stm) < 64
    ensures Legal(p, m) <==>
      PassesTest(p.cells, p.stm, KingSquare(p.cells, p.stm), m, PinnedPieces(p.cells, p.stm, KingSquare(p.cells, p.stm)))
  {
    var k := KingSquare(p.cells, p.stm);
    EpTargets(p, k, [m]);
    assert m in [m];
    FromOwn(p, k, m);
    hide Evasion, PseudoLegal, PinnedPieces, FullRay, RookAttacks, BishopAttacks, Checkers, RightsHome, EpHome, PawnsInside, EpOccupancy;
  }

  lemma FromOwn(p: Pos, k: Square, m: Move)
    requires WellFormed(p) && IsKing(p.cells, p.stm, k) && Generated(p, k, m)
    ensures m.from in p.cells
  {
    if m.kind == Castling && Checkers(p.cells, p.stm, k) == {} {
      CastlingIsWellTyped(p.cells, p.stm, p.Top().rights, m);
    }
    hide Attacks, Rank, Intervening, KingAttacks, PawnAttacks, Checkers, RightsHome, EpHome, PawnsInside;
  }

  // ---- draws ----

  /** Black squares of the board, a1 among them, have even coordinates' sum. */
  predicate Dark(s: Square) {
    (File(s) + Rank(s)) % 2 == 0
  }

  predicate Has(cells: Cells, k: PieceType) {
    OfKind(cells, k) != {}
  }

  /** Kings with at most bishops of one square colour, or with one knight. */
  predicate DeadMaterial(cells: Cells) {
    && !Has(cells, PAWN) && !Has(cells, ROOK) && !Has(cells, QUEEN)
    && (|| (!Has(cells, KNIGHT) && ((forall s :: s in OfKind(cells, BISHOP) ==> Dark(s)) || forall s :: s in OfKind(cells, BISHOP) ==> !Dark(s)))
        || (!Has(cells, BISHOP) && |OfKind(cells, KNIGHT)| == 1))
  }

  function DarkSquares(): Bitboard {
    set s: Square | Dark(s)
  }

  /** `is_insufficient_material_draw`. */
  method InsufficientMaterial(pos: Position) returns (r: bool)
    requires pos.Encodes()
    ensures r <==> DeadMaterial(pos.cells)
  {
    var whiteKnights, blackKnights := pos.typeBb[KNIGHT] * pos.colorBb[WHITE], pos.typeBb[KNIGHT] * pos.colorBb[BLACK];
    var whiteBishops, blackBishops := pos.typeBb[BISHOP] * pos.colorBb[WHITE], pos.typeBb[BISHOP] * pos.colorBb[BLACK];
    var whitePawns, blackPawns := pos.typeBb[PAWN] * pos.colorBb[WHITE], pos.typeBb[PAWN] * pos.colorBb[BLACK];
    var whiteRooks, blackRooks := pos.typeBb[ROOK] * pos.colorBb[WHITE], pos.typeBb[ROOK] * pos.colorBb[BLACK];
    MinorsDecide(pos.cells);
    hide OfKind, Side, DarkSquares;
    if pos.typeBb[PAWN] != {} || pos.typeBb[QUEEN] != {} || pos.typeBb[ROOK] != {} {
      return false;
    }
    if (whiteKnights != {} && whiteBishops != {}) || (blackKnights != {} && blackBishops != {}) {
      return false;
    }
    if |whiteKnights| >= 2 || |blackKnights| >= 2 {
      return false;
    }
    if (whiteBishops != {} && (blackKnights != {} || blackPawns != {})) || (blackBishops != {} && (whiteKnights != {} || whitePawns != {})) {
      return false;
    }
    if ((whiteRooks != {} || whiteBishops != {} || whiteKnights != {} || whitePawns != {}) && blackKnights != {}) ||
       ((blackRooks != {} || blackBishops != {} || blackKnights != {} || blackPawns != {}) && whiteKnights != {}) {
      return false;
    }
    var bishops := pos.typeBb[BISHOP];
    if bishops * DarkSquares() != {} && bishops - DarkSquares() != {} {
      return false;
    }
    return true;
  }

  /** Without pawns, rooks and queens the tests on minor pieces decide. */
  lemma MinorsDecide(cells: Cells)
    ensures
      var whiteKnights, blackKnights := OfKind(cells, KNIGHT) * Side(cells, WHITE), OfKind(cells, KNIGHT) * Side(cells, BLACK);
      var whiteBishops, blackBishops := OfKind(cells, BISHOP) * Side(cells, WHITE), OfKind(cells, BISHOP) * Side(cells, BLACK);
      DeadMaterial(cells) <==>
      && OfKind(cells, PAWN) == {} && OfKind(cells, ROOK) == {} && OfKind(cells, QUEEN) == {}
      && (whiteKnights == {} || (blackKnights == {} && whiteBishops == {} && blackBishops == {} && |whiteKnights| < 2))
      && (blackKnights == {} || (whiteKnights == {} && whiteBishops == {} && blackBishops == {} && |blackKnights| < 2))
      && (OfKind(cells, BISHOP) * DarkSquares() == {} || OfKind(cells, BISHOP) - DarkSquares() == {})
  {
    ByColor(cells, KNIGHT);
    ByColor(cells, BISHOP);
    OneColour(OfKind(cells, BISHOP));
    hide OfKind, Side, DarkSquares, Dark;
  }

  lemma OneColour(bishops: Bitboard)
    ensures bishops - DarkSquares() == {} <==> forall s :: s in bishops ==> Dark(s)
    ensures bishops * DarkSquares() == {} <==> forall s :: s in bishops ==> !Dark(s)
  {
    hide Dark;
    if bishops - DarkSquares() == {} {
      forall s | s in bishops ensures Dark(s) {
        assert s !in bishops - DarkSquares();
      }
    }
    if bishops * DarkSquares() == {} {
      forall s | s in bishops ensures !Dark(s) {
        assert s !in bishops * DarkSquares();
      }
    }
  }

  lemma ByColor(cells: Cells, k: PieceType)
    ensures
      var white, black := OfKind(cells, k) * Side(cells, WHITE), OfKind(cells, k) * Side(cells, BLACK);
      && OfKind(cells, k) == white + black && |OfKind(cells, k)| == |white| + |black|
  {
    var white, black := OfKind(cells, k) * Side(cells, WHITE), OfKind(cells, k) * Side(cells, BLACK);
    assert white !! black && OfKind(cells, k) == white + black;
  }

  lemma BishopColour(s: Square, t: Square, c: Color, occ: Bitboard)
    ensures Attacks(Piece(BISHOP, c), s, t, occ) ==> (Dark(s) <==> Dark(t))
  {
    hide Clear;
  }

  /** Material that draws stays so: no pseudo-legal move brings back enough to go on. */
  lemma DeadStaysDead(cells: Cells, c: Color, rights: bv4, ep: Option<Square>, m: Move)
    requires RightsHome(cells, rights) && EpHome(cells, c, ep) && PseudoLegal(cells, c, rights, ep, m) && DeadMaterial(cells)
    ensures WellTyped(cells, c, m) && DeadMaterial(NextCells(cells, c, m))
  {
    PseudoLegalIsWellTyped(cells, c, rights, ep, m);
    OnlyPieces(cells, c, rights, ep, m);
    BishopColour(m.from, m.to, c, cells.Keys);
    DeadMoves(cells, c, m);
    hide PseudoLegal, RightsHome, EpHome, Dark, NextCells, DeadMaterial, Attacks;
  }

  /** Without pawns and rooks only pieces move, by attack. */
  lemma OnlyPieces(cells: Cells, c: Color, rights: bv4, ep: Option<Square>, m: Move)
    requires RightsHome(cells, rights) && PseudoLegal(cells, c, rights, ep, m) && DeadMaterial(cells)
    ensures m.from in cells && cells[m.from].color == c && (m.kind == Normal || m.kind == Capture)
    ensures Attacks(cells[m.from], m.from, m.to, cells.Keys)
  {
    assert forall s :: s in cells ==> cells[s].kind != PAWN && cells[s].kind != ROOK by {
      forall s | s in cells ensures cells[s].kind != PAWN && cells[s].kind != ROOK {
        assert s in OfKind(cells, cells[s].kind);
      }
    }
    hide Attacks, DeadMaterial, Dark;
  }

  lemma DeadMoves(cells: Cells, c: Color, m: Move)
    requires WellTyped(cells, c, m) && (m.kind == Normal || m.kind == Capture) && DeadMaterial(cells)
    requires cells[m.from].kind == BISHOP ==> (Dark(m.from) <==> Dark(m.to))
    ensures DeadMaterial(NextCells(cells, c, m))
  {
    var next := NextCells(cells, c, m);
    KindsAfter(cells, c, m, PAWN);
    KindsAfter(cells, c, m, ROOK);
    KindsAfter(cells, c, m, QUEEN);
    KindsAfter(cells, c, m, KNIGHT);
    KindsAfter(cells, c, m, BISHOP);
    BishopFrom(cells, c, m);
    hide NextCells, OfKind, WellTyped, Dark, DeadMaterial, Went;
    DeadSets(OfKind(cells, KNIGHT), OfKind(cells, BISHOP), OfKind(next, KNIGHT), OfKind(next, BISHOP), m.from, m.to);
    DeadCarries(cells, next);
  }

  lemma BishopFrom(cells: Cells, c: Color, m: Move)
    requires m.from in cells
    ensures m.from in OfKind(cells, BISHOP) <==> cells[m.from].kind == BISHOP
  {
  }

  lemma DeadCarries(cells: Cells, next: Cells)
    requires DeadMaterial(cells)
    requires forall k: PieceType :: k != KING && OfKind(cells, k) == {} ==> OfKind(next, k) == {}
    requires |OfKind(cells, KNIGHT)| == 1 ==> OfKind(next, KNIGHT) == {} || |OfKind(next, KNIGHT)| == 1
    requires (forall s :: s in OfKind(cells, BISHOP) ==> Dark(s)) ==> forall s :: s in OfKind(next, BISHOP) ==> Dark(s)
    requires (forall s :: s in OfKind(cells, BISHOP) ==> !Dark(s)) ==> forall s :: s in OfKind(next, BISHOP) ==> !Dark(s)
    ensures DeadMaterial(next)
  {
    hide OfKind, Dark;
  }

  /** One piece of a kind, or none, went from one square to the other, taking what stood there. */
  predicate Went(before: Bitboard, after: Bitboard, from: Square, to: Square) {
    after == before - {from} - {to} + if from in before then {to} else {}
  }

  lemma WentSize(before: Bitboard, after: Bitboard, from: Square, to: Square)
    requires Went(before, after, from, to)
    ensures |after| <= |before| && (from !in before ==> after <= before) && (before == {} ==> after == {})
  {
    if from in before {
      assert |before - {from}| == |before| - 1 && before - {from} - {to} <= before - {from};
      assert |before - {from} - {to}| <= |before - {from}|;
    } else {
      assert after == before - {to};
    }
  }

  lemma DeadSets(knights: Bitboard, bishops: Bitboard, knights': Bitboard, bishops': Bitboard, from: Square, to: Square)
    requires Went(knights, knights', from, to) && Went(bishops, bishops', from, to)
    requires from in bishops ==> (Dark(from) <==> Dark(to))
    ensures knights == {} ==> knights' == {}
    ensures bishops == {} ==> bishops' == {}
    ensures |knights| == 1 ==> knights' == {} || |knights'| == 1
    ensures (forall s :: s in bishops ==> Dark(s)) ==> forall s :: s in bishops' ==> Dark(s)
    ensures (forall s :: s in bishops ==> !Dark(s)) ==> forall s :: s in bishops' ==> !Dark(s)
  {
    hide Dark;
    WentSize(knights, knights', from, to);
    WentSize(bishops, bishops', from, to);
    if |knights| == 1 && knights' != {} {
      var s :| s in knights';
      assert {s} <= knights' && |knights' - {s}| == |knights'| - 1;
    }
  }

  lemma KindsAfter(cells: Cells, c: Color, m: Move, k: PieceType)
    requires WellTyped(cells, c, m) && (m.kind == Normal || m.kind == Capture)
    ensures Went(OfKind(cells, k), OfKind(NextCells(cells, c, m), k), m.from, m.to)
    ensures cells[m.from].kind == k <==> m.from in OfKind(cells, k)
    ensures OfKind(cells, k) == {} ==> OfKind(NextCells(cells, c, m), k) == {}
  {
    var before, next := OfKind(cells, k), OfKind(NextCells(cells, c, m), k);
    forall s: Square ensures s in next <==> s in before - {m.from} - {m.to} + if m.from in before then {m.to} else {} {
    }
    assert next == before - {m.from} - {m.to} + if m.from in before then {m.to} else {};
  }

  /** Where quiescence search stops with a draw or a mate. */
  predicate DrawnHere(p: Pos)
    requires p.history != []
  {
    p.Top().halfmoves >= 100 || RepeatCount(p.history) >= 1 || DeadMaterial(p.cells)
  }

  method IsDrawnHere(pos: Position) returns (r: bool)
    requires pos.Valid()
    ensures r <==> DrawnHere(pos.View())
    ensures r <==> pos.history[pos.ply].halfmoves >= 100 || RepeatCount(pos.history) >= 1 || DeadMaterial(pos.cells)
  {
    hide RepeatCount, DeadMaterial, Positions.Position.Encodes;
    var repeated := pos.IsRepeat(1);
    var dead := InsufficientMaterial(pos);
    r := pos.history[pos.ply].halfmoves >= 100 || repeated || dead;
  }

  // ---- exchanges, off the boards ----

  /** The least valuable attacker: the piece boards in turn. */
  method FirstAttacker(pos: Position, mine: Bitboard) returns (from: Square)
    requires pos.Encodes() && mine <= pos.cells.Keys && mine != {}
    ensures from == LeastValuable(pos.cells, mine, PAWN)
  {
    from := 0;
    for k := 0 to 6
      invariant forall t :: t in mine ==> k <= pos.cells[t].kind
      invariant k < 6 ==> LeastValuable(pos.cells, mine, k) == LeastValuable(pos.cells, mine, PAWN)
    {
      var candidates := mine * pos.typeBb[k];
      if candidates != {} {
        return Lowest(candidates);
      }
      assert forall t :: t in mine && pos.cells[t].kind == k ==> t in candidates;
    }
    assert false;
  }

  /** `see_rec`. */
  method ExchangeRec(pos: Position, occ: Bitboard, to: Square, stm: Color, captured: int, depth: nat) returns (r: int)
    requires pos.Encodes()
    ensures r == SeeRec(pos.cells, occ, to, stm, captured, depth)
    decreases 32 - depth
  {
    hide Attackers, LeastValuable, Value;
    if depth > 31 {
      return 0;
    }
    var attackers := pos.AttackersTo(to, occ);
    var mine := attackers * occ * pos.colorBb[stm];
    assert mine == Hitters(pos.cells, to, occ) * Side(pos.cells, stm);
    if mine == {} {
      return 0;
    }
    var from := FirstAttacker(pos, mine);
    var kind := pos.PieceTypeOn(from);
    if kind.value == KING {
      var after := occ - {from};
      var enemies := pos.AttackersTo(to, after);
      assert enemies * pos.colorBb[Other(stm)] * after == Hitters(pos.cells, to, after) * Side(pos.cells, Other(stm));
      return if enemies * pos.colorBb[Other(stm)] * after != {} then 0 else captured;
    }
    var continuation := ExchangeRec(pos, occ - {from}, to, Other(stm), Value(kind.value), depth + 1);
    return Max(0, captured - continuation);
  }

  /** `see`. */
  method ExchangeValue(pos: Position, m: Move) returns (r: int)
    requires pos.Encodes() && m.from in pos.cells
    ensures r == Exchange(pos.cells, pos.stm, m)
  {
    hide SeeRec, Value, Positions.Position.Encodes;
    var target := pos.PieceTypeOn(m.to);
    if !IsCapture(m) && target.None? {
      return if m.PromotionType().None? then 0 else Value(m.promotion) - Value(PAWN);
    }
    var moving := pos.PieceTypeOn(m.from);
    var capturedValue := if target.Some? then Value(target.value) else 100;
    var movingValue := Value(if m.PromotionType().Some? then m.promotion else moving.value);
    var all := pos.Occupancy();
    var occ := Xor(all, {m.from});
    if m.kind == EnPassant && 0 <= Behind(m.to, pos.stm) < 64 {
      occ := Xor(occ, {Behind(m.to, pos.stm)});
    }
    var reply := ExchangeRec(pos, occ, m.to, Other(pos.stm), movingValue, 0);
    r := capturedValue - reply;
  }

  // ---- a legal capture that the exchange value overrates ----

  function OverratedRoot(z: Randoms): Pos {
    Pos(UNCOVERING, BLACK, 1, [State(0, None, None, None, Untyped, FullHash(z, UNCOVERING, BLACK, 0, None), 0)])
  }

  const AFTER_KNIGHT_TAKES: Cells := map[27 := Piece(PAWN, WHITE), 29 := Piece(KING, WHITE), 36 := Piece(KNIGHT, BLACK),
                                         18 := Piece(BISHOP, BLACK), 9 := Piece(QUEEN, BLACK), 56 := Piece(KING, BLACK)]

  lemma UncoveringKings()
    ensures IsKing(UNCOVERING, WHITE, 29) && IsKing(UNCOVERING, BLACK, 56) && PawnsInside(UNCOVERING)
  {
  }

  lemma NobodySeesF4(occ: Bitboard)
    ensures !Attacks(Piece(KNIGHT, BLACK), 51, 29, occ) && !Attacks(Piece(BISHOP, BLACK), 18, 29, occ)
    ensures !Attacks(Piece(QUEEN, BLACK), 9, 29, occ) && !Attacks(Piece(KING, BLACK), 56, 29, occ)
  {
  }

  lemma WhiteIsNotInCheck()
    ensures !Attacked(UNCOVERING, 29, BLACK)
  {
    UnattackedMeaning(UNCOVERING, 29, BLACK);
    NobodySeesF4(UNCOVERING.Keys);
    hide Attacks;
    assert forall s :: Owns(UNCOVERING, BLACK, s) ==> s in {51, 18, 9, 56};
  }

  lemma BlackIsNotInCheckAfter()
    ensures !Attacked(AFTER_KNIGHT_TAKES, 56, WHITE)
  {
    UnattackedMeaning(AFTER_KNIGHT_TAKES, 56, WHITE);
    assert !Attacks(Piece(PAWN, WHITE), 27, 56, AFTER_KNIGHT_TAKES.Keys) && !Attacks(Piece(KING, WHITE), 29, 56, AFTER_KNIGHT_TAKES.Keys);
    hide Attacks;
    assert forall s :: Owns(AFTER_KNIGHT_TAKES, WHITE, s) ==> s in {27, 29};
  }

  lemma KnightMayTake()
    ensures PseudoLegal(UNCOVERING, BLACK, 0, None, KNIGHT_TAKES) && WellTyped(UNCOVERING, BLACK, KNIGHT_TAKES)
    ensures NextCells(UNCOVERING, BLACK, KNIGHT_TAKES) == AFTER_KNIGHT_TAKES
  {
  }

  lemma KnightTakeIsSafe(z: Randoms)
    ensures WellFormed(OverratedRoot(z)) && Safe(OverratedRoot(z), KNIGHT_TAKES)
  {
    hide Attacked, IsKing, PawnsInside, FullHash, PseudoLegal, NextCells, WellTyped, OneKing, KingSquare;
    UncoveringKings();
    TheKing(UNCOVERING, WHITE, 29);
    TheKing(UNCOVERING, BLACK, 56);
    BlackIsNotInCheckAfter();
    KnightMayTake();
  }

  /** The capture `see` and its reference disagree on is legal in a sound position. */
  lemma OverratedCaptureIsLegal(z: Randoms)
    ensures Sound(OverratedRoot(z)) && HashOk(z, OverratedRoot(z)) && Legal(OverratedRoot(z), KNIGHT_TAKES)
    ensures Exchange(UNCOVERING, BLACK, KNIGHT_TAKES) == 280 && BruteExchange(UNCOVERING, BLACK, KNIGHT_TAKES) == 180
  {
    hide Attacked, IsKing, PawnsInside, FullHash, PseudoLegal, Legal, Safe, Exchange, BruteExchange, OneKing, KingSquare, WellFormed;
    GreedyIsNotAlwaysBest();
    WhiteIsNotInCheck();
    UncoveringKings();
    TheKing(UNCOVERING, WHITE, 29);
    KnightTakeIsSafe(z);
    LegalIsSafe(OverratedRoot(z), KNIGHT_TAKES);
  }
}
