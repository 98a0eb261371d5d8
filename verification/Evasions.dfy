/** Answering a check: the evasion generator, and the engine's whole legal move list against the
    moves that leave the king unattacked. */
module Evasions {
  import opened Types
  import opened Lookups
  import opened Rules
  import opened Legality
  import opened Pins

  function Checkers(cells: Cells, c: Color, k: Square): Bitboard {
    Attackers(cells, k, cells.Keys) * Side(cells, Other(c))
  }

  predicate KingEvasion(cells: Cells, c: Color, k: Square, m: Move) {
    && m.from == k && m.promotion == PAWN && m.to in KingAttacks(k) && !Owns(cells, c, m.to)
    && Attackers(cells, m.to, cells.Keys - {k}) * Side(cells, Other(c)) == {}
    && m.kind == (if Owns(cells, Other(c), m.to) then Capture else Normal)
  }

  /** `generate_checker_capture_moves`, en-passant part. */
  predicate EpTakesChecker(cells: Cells, c: Color, ep: Option<Square>, k: Square, m: Move) {
    && m.kind == EnPassant && m.promotion == PAWN && ep == Some(m.to)
    && Behind(m.to, c) in Checkers(cells, c, k) && m.from in EpCandidates(cells, c, m.to)
  }

  /** `generate_checker_capture_moves`, the rest. */
  predicate TakesChecker(cells: Cells, c: Color, k: Square, checker: Square, m: Move) {
    && m.to == checker && m.from in Attackers(cells, checker, cells.Keys) * Side(cells, c) - {k}
    && if LastRankPawn(cells, c, m.from) then m.kind == CapturePromotion && Promotes(m) else m.kind == Capture && m.promotion == PAWN
  }

  /** `generate_checker_block_moves`. */
  predicate BlocksChecker(cells: Cells, c: Color, k: Square, checker: Square, m: Move) {
    && m.to in Intervening(k, checker)
    && (|| (m.kind == DoublePush && m.promotion == PAWN && Holds(cells, m.from, PAWN, c) && OnRank(m.from, c, 1)
            && PawnShift(m.from, c) !in cells && m.to == (if c == WHITE then m.from + 16 else m.from - 16))
        || (Holds(cells, m.from, PAWN, c) && m.to == PawnShift(m.from, c)
            && if OnRank(m.from, c, 6) then m.kind == Promotion && Promotes(m) else m.kind == Normal && m.promotion == PAWN)
        || (m.kind == Normal && m.promotion == PAWN && m.from in Attackers(cells, m.to, cells.Keys) * Side(cells, c) - {k}
            && cells[m.from].kind != PAWN))
  }

  /** `check_evasion_move_list`. */
  predicate Evasion(cells: Cells, c: Color, ep: Option<Square>, k: Square, m: Move) {
    || KingEvasion(cells, c, k, m)
    || (&& |Checkers(cells, c, k)| == 1
        && (EpTakesChecker(cells, c, ep, k, m)
            || TakesChecker(cells, c, k, Lowest(Checkers(cells, c, k)), m)
            || BlocksChecker(cells, c, k, Lowest(Checkers(cells, c, k)), m)))
  }

  /** The king of `c` is not attacked once `m` is on the board. */
  predicate SafeAfter(cells: Cells, c: Color, k: Square, m: Move) {
    WellTyped(cells, c, m) && !Attacked(NextCells(cells, c, m), if m.from == k then m.to else k, Other(c))
  }

  predicate Plain(m: Move) {
    m.kind != Castling && m.kind != EnPassant && m.kind != Untyped
  }

  // ---- one checker ----

  lemma SingleMeaning(s: Bitboard, x: Square)
    requires x in s
    ensures |s| == 1 <==> s == {x}
    ensures |s| == 1 ==> Lowest(s) == x
  {
    if |s| == 1 {
      assert |s - {x}| == 0;
    }
  }

  lemma StepSeesNothingBetween(p: Piece, s: Square, k: Square, x: Square, occ: Bitboard)
    requires !Slider(p) && Attacks(p, s, k, occ)
    ensures !InBetween(s, x, k)
  {
    NothingInside(File(s), Rank(s), File(x), Rank(x), File(k), Rank(k));
  }

  lemma BetweenFlip(a: Square, m: Square, b: Square)
    ensures InBetween(a, m, b) <==> InBetween(b, m, a)
  {
  }

  /** One move of a piece other than the king cannot answer two checks. */
  lemma AnsweredIsSingle(cells: Cells, c: Color, k: Square, to: Square, a: Square, b: Square)
    requires AllAnswered(cells, c, to, k) && a in Checkers(cells, c, k) && b in Checkers(cells, c, k)
    ensures a == b
  {
    if a != b {
      AttackParts(cells[a], a, k, cells.Keys, cells.Keys);
      AttackParts(cells[b], b, k, cells.Keys, cells.Keys);
      assert Answers(cells, to, k, a) && Answers(cells, to, k, b);
      if a != to && b != to {
        SameSide(File(a), Rank(a), File(b), Rank(b), File(to), Rank(to), File(k), Rank(k));
      }
      assert false;
    }
  }

  lemma AnswersMeaning(cells: Cells, c: Color, k: Square, checker: Square, to: Square)
    requires checker in Checkers(cells, c, k)
    ensures Answers(cells, to, k, checker) <==> to == checker || to in Intervening(k, checker)
    ensures to in Intervening(k, checker) ==> to !in cells
  {
    InterveningMeaning(k, checker, to);
    BetweenFlip(k, to, checker);
    hide InBetween, Intervening;
    if !Slider(cells[checker]) {
      StepSeesNothingBetween(cells[checker], checker, k, to, cells.Keys);
    } else {
      AttackParts(cells[checker], checker, k, cells.Keys, cells.Keys);
    }
  }

  lemma AnsweredMeaning(cells: Cells, c: Color, k: Square, to: Square)
    requires Checkers(cells, c, k) != {}
    ensures AllAnswered(cells, c, to, k) <==>
      |Checkers(cells, c, k)| == 1 &&
      var checker := Lowest(Checkers(cells, c, k)); to == checker || to in Intervening(k, checker)
  {
    var checkers := Checkers(cells, c, k);
    var checker := Lowest(checkers);
    AnswersMeaning(cells, c, k, checker, to);
    hide Attacks, Intervening, Answers;
    assert forall s :: s in checkers <==> Owns(cells, Other(c), s) && Attacks(cells[s], s, k, cells.Keys);
    if AllAnswered(cells, c, to, k) {
      forall s | s in checkers ensures s == checker {
        AnsweredIsSingle(cells, c, k, to, s, checker);
      }
      assert checkers == {checker};
    }
    SingleMeaning(checkers, checker);
  }

  lemma TakesMeaning(cells: Cells, c: Color, rights: bv4, ep: Option<Square>, m: Move, k: Square, checker: Square)
    requires Plain(m) && m.from != k && Owns(cells, Other(c), checker)
    ensures TakesChecker(cells, c, k, checker, m) <==> PseudoLegal(cells, c, rights, ep, m) && m.to == checker
  {
    hide Rank, Attacks;
  }

  lemma BlocksMeaning(cells: Cells, c: Color, rights: bv4, ep: Option<Square>, m: Move, k: Square, checker: Square)
    requires Plain(m) && m.from != k && (m.to in Intervening(k, checker) ==> m.to !in cells)
    ensures BlocksChecker(cells, c, k, checker, m) <==> PseudoLegal(cells, c, rights, ep, m) && m.to in Intervening(k, checker)
  {
    hide Rank, Attacks, Intervening;
  }

  /** A plain move of another piece is an evasion exactly when it is pseudo-legal and answers
      every check. */
  lemma PlainEvasion(cells: Cells, c: Color, rights: bv4, ep: Option<Square>, m: Move, k: Square)
    requires IsKing(cells, c, k) && Checkers(cells, c, k) != {} && Plain(m) && m.from != k
    ensures Evasion(cells, c, ep, k, m) <==> PseudoLegal(cells, c, rights, ep, m) && AllAnswered(cells, c, m.to, k)
  {
    var checker := Lowest(Checkers(cells, c, k));
    AnsweredMeaning(cells, c, k, m.to);
    AnswersMeaning(cells, c, k, checker, m.to);
    TakesMeaning(cells, c, rights, ep, m, k, checker);
    BlocksMeaning(cells, c, rights, ep, m, k, checker);
    hide Intervening, AllAnswered, Answers, Attacks, PseudoLegal, TakesChecker, BlocksChecker;
  }

  /** In check, plain moves of a piece other than the king: generated and past the pin test
      exactly when pseudo-legal and safe. */
  lemma PlainExact(cells: Cells, c: Color, rights: bv4, ep: Option<Square>, m: Move, k: Square)
    requires RightsHome(cells, rights) && EpHome(cells, c, ep) && IsKing(cells, c, k)
    requires Plain(m) && m.from != k && PseudoLegal(cells, c, rights, ep, m)
    ensures SafeAfter(cells, c, k, m) <==> AllAnswered(cells, c, m.to, k) && PassesTest(cells, c, k, m, PinnedPieces(cells, c, k))
  {
    PseudoLegalIsWellTyped(cells, c, rights, ep, m);
    PathClear(cells, c, rights, ep, m);
    PlainMoved(cells, c, m);
    AttackedAfter(cells, NextCells(cells, c, m), c, m.from, m.to, k);
    PinnedOffLine(cells, c, m.from, m.to, k);
  }

  // ---- king moves ----

  lemma KingEvasionMeaning(cells: Cells, c: Color, rights: bv4, ep: Option<Square>, m: Move, k: Square)
    requires RightsHome(cells, rights) && EpHome(cells, c, ep) && IsKing(cells, c, k) && m.from == k && m.kind != Castling
    ensures KingEvasion(cells, c, k, m) <==> PseudoLegal(cells, c, rights, ep, m) && SafeAfter(cells, c, k, m)
  {
    StepsMeaning(KING, c, k, m.to, cells.Keys);
    hide Rank, Attacks, NextCells, CanCastle, KingAttacks;
    if PseudoLegal(cells, c, rights, ep, m) {
      PseudoLegalIsWellTyped(cells, c, rights, ep, m);
      PlainMoved(cells, c, m);
      KingAttackedAfter(cells, NextCells(cells, c, m), c, k, m.to);
    }
  }

  // ---- en passant in check ----

  lemma VictimCheckNotBlocked(c: Color, to: Square, s: Square, k: Square, occ: Bitboard)
    requires 0 <= Behind(to, c) < 64 && Attacks(Piece(PAWN, Other(c)), Behind(to, c), k, occ)
    ensures !InBetween(s, to, k)
  {
    assert File(Behind(to, c)) == File(to);
    assert Abs(File(to) - File(k)) == 1 && Abs(Rank(to) - Rank(k)) == 2;
    KnightApart(File(s), Rank(s), File(to), Rank(to), File(k), Rank(k));
  }

  lemma KnightApart(fa: int, ra: int, fm: int, rm: int, fb: int, rb: int)
    requires Abs(fm - fb) == 1 && Abs(rm - rb) == 2
    ensures !Inside(fa, ra, fm, rm, fb, rb)
  {
  }

  lemma EpChecksEnd(cells: Cells, c: Color, k: Square, m: Move, s: Square)
    requires WellTyped(cells, c, m) && m.kind == EnPassant && SafeAfter(cells, c, k, m) && m.from != k
    requires Behind(m.to, c) in Checkers(cells, c, k) && s in Checkers(cells, c, k)
    ensures s == Behind(m.to, c)
  {
    var after := NextCells(cells, c, m);
    EpAttackedAfter(cells, c, k, m);
    EpTestMeaning(cells, c, k, m);
    EpShape(cells, c, m);
    VictimCheckNotBlocked(c, m.to, s, k, cells.Keys);
    hide NextCells, Attacks, InBetween, PassesTest, RookAttacks, BishopAttacks;
    if s != Behind(m.to, c) {
      assert !StepCheck(cells, c, k, s);
      AttackParts(cells[s], s, k, cells.Keys, cells.Keys);
      AttackParts(cells[s], s, k, after.Keys, after.Keys);
      assert false;
    }
  }

  lemma EpGenerated(cells: Cells, c: Color, rights: bv4, ep: Option<Square>, m: Move, k: Square)
    requires EpHome(cells, c, ep) && m.kind == EnPassant && IsKing(cells, c, k)
    ensures EpTakesChecker(cells, c, ep, k, m) <==>
      PseudoLegal(cells, c, rights, ep, m) && Behind(m.to, c) in Checkers(cells, c, k)
    ensures EpTakesChecker(cells, c, ep, k, m) ==> 0 <= Behind(m.to, c) < 64 && m.from != k
  {
    PawnAttacksMeaning(m.to, Other(c), m.from);
    hide PawnAttacks;
  }

  /** A generated en-passant evasion is safe exactly when the captured pawn gave the only check
      and the test passes. */
  lemma EpSafe(cells: Cells, c: Color, m: Move, k: Square)
    requires WellTyped(cells, c, m) && m.kind == EnPassant && m.from != k && Behind(m.to, c) in Checkers(cells, c, k)
    ensures SafeAfter(cells, c, k, m) <==> |Checkers(cells, c, k)| == 1 && PassesTest(cells, c, k, m, {})
  {
    var victim, checkers := Behind(m.to, c), Checkers(cells, c, k);
    EpAttackedAfter(cells, c, k, m);
    SingleMeaning(checkers, victim);
    hide NextCells, Attacks, PassesTest, MoveTypeOf, WellTyped;
    if SafeAfter(cells, c, k, m) {
      forall s | s in checkers ensures s == victim {
        EpChecksEnd(cells, c, k, m, s);
      }
      assert checkers == {victim};
    }
    if |checkers| == 1 {
      forall s | StepCheck(cells, c, k, s) ensures s == victim {
        assert s in checkers;
      }
    }
  }

  lemma EpExact(cells: Cells, c: Color, rights: bv4, ep: Option<Square>, m: Move, k: Square)
    requires RightsHome(cells, rights) && EpHome(cells, c, ep) && IsKing(cells, c, k)
    requires Checkers(cells, c, k) != {} && m.kind == EnPassant && ep == Some(m.to)
    ensures Evasion(cells, c, ep, k, m) && PassesTest(cells, c, k, m, PinnedPieces(cells, c, k)) <==>
      PseudoLegal(cells, c, rights, ep, m) && SafeAfter(cells, c, k, m) && Behind(m.to, c) in Checkers(cells, c, k)
  {
    EpGenerated(cells, c, rights, ep, m, k);
    if EpTakesChecker(cells, c, ep, k, m) {
      PseudoLegalIsWellTyped(cells, c, rights, ep, m);
      EpSafe(cells, c, m, k);
    }
    hide SafeAfter, PseudoLegal, EpTakesChecker, RookAttacks, BishopAttacks, Attacks;
  }

  // ---- the whole list ----

  /** `legal_move_list`: evasions in check, pseudo-legal moves otherwise, filtered by the test
      only when the mover is pinned, is the king, or captures en passant. */
  predicate InLegalList(cells: Cells, c: Color, rights: bv4, ep: Option<Square>, k: Square, m: Move) {
    var pinned := PinnedPieces(cells, c, k);
    && (if Checkers(cells, c, k) != {} then Evasion(cells, c, ep, k, m) else PseudoLegal(cells, c, rights, ep, m))
    && (m.kind == EnPassant ==> 0 <= Behind(m.to, c) < 64)
    && (m.from in pinned || m.from == k || m.kind == EnPassant ==> PassesTest(cells, c, k, m, pinned))
  }

  lemma KingNotInCheck(cells: Cells, c: Color, rights: bv4, ep: Option<Square>, m: Move, k: Square)
    requires IsKing(cells, c, k) && m.from == k && Plain(m)
    requires Checkers(cells, c, k) == {} && PseudoLegal(cells, c, rights, ep, m) && WellTyped(cells, c, m)
    ensures PassesTest(cells, c, k, m, PinnedPieces(cells, c, k)) <==> SafeAfter(cells, c, k, m)
  {
    hide NextCells, Rank, RookAttacks, BishopAttacks, FullRay, Attacks, MoveTypeOf, WellTyped;
    KingTestExact(cells, c, k, m.to);
    PlainMoved(cells, c, m);
    KingAttackedAfter(cells, NextCells(cells, c, m), c, k, m.to);
  }

  lemma NotInCheckExact(cells: Cells, c: Color, rights: bv4, ep: Option<Square>, m: Move, k: Square)
    requires RightsHome(cells, rights) && EpHome(cells, c, ep) && IsKing(cells, c, k)
    requires Checkers(cells, c, k) == {} && PseudoLegal(cells, c, rights, ep, m)
    ensures m.kind == EnPassant ==> 0 <= Behind(m.to, c) < 64
    ensures PassesTest(cells, c, k, m, PinnedPieces(cells, c, k)) <==> SafeAfter(cells, c, k, m)
  {
    PseudoLegalIsWellTyped(cells, c, rights, ep, m);
    hide NextCells, Rank, RookAttacks, BishopAttacks, FullRay, Attacks, MoveTypeOf, WellTyped;
    if m.kind == Castling {
      CastlingIsSafe(cells, c, rights, m);
    } else if m.kind == EnPassant {
      EpAttackedAfter(cells, c, k, m);
      if s :| StepCheck(cells, c, k, s) {
        assert false;
      }
    } else if m.from == k {
      KingNotInCheck(cells, c, rights, ep, m, k);
    } else {
      UnattackedMeaning(cells, k, Other(c));
      PlainExact(cells, c, rights, ep, m, k);
      hide PseudoLegal, SafeAfter, PinnedPieces;
    }
  }

  /** The legal move list holds exactly the pseudo-legal moves that leave the own king
      unattacked once played; the only moves missing are en-passant captures that would stop a
      check given by something else than the pawn they take. */
  lemma LegalListExact(cells: Cells, c: Color, rights: bv4, ep: Option<Square>, m: Move, k: Square)
    requires RightsHome(cells, rights) && EpHome(cells, c, ep) && IsKing(cells, c, k)
    ensures InLegalList(cells, c, rights, ep, k, m) <==>
      PseudoLegal(cells, c, rights, ep, m) && SafeAfter(cells, c, k, m) &&
      (m.kind == EnPassant && Checkers(cells, c, k) != {} ==> Behind(m.to, c) in Checkers(cells, c, k))
  {
    hide NextCells, Rank, RookAttacks, BishopAttacks, FullRay, Attacks, KingAttacks, PawnAttacks, Intervening, WellTyped, MoveTypeOf;
    if Checkers(cells, c, k) == {} {
      if PseudoLegal(cells, c, rights, ep, m) {
        NotInCheckExact(cells, c, rights, ep, m, k);
      }
    } else if m.kind == Castling {
      assert !Evasion(cells, c, ep, k, m) && !PseudoLegal(cells, c, rights, ep, m) by {
        CastlingNeedsNoCheck(cells, c, rights, m, k);
      }
    } else if m.from == k {
      KingInCheck(cells, c, rights, ep, m, k);
    } else if m.kind == EnPassant {
      if ep == Some(m.to) {
        EpExact(cells, c, rights, ep, m, k);
      }
    } else if m.kind != Untyped {
      PlainEvasion(cells, c, rights, ep, m, k);
      if PseudoLegal(cells, c, rights, ep, m) {
        PlainExact(cells, c, rights, ep, m, k);
      }
    }
  }

  lemma CastlingNeedsNoCheck(cells: Cells, c: Color, rights: bv4, m: Move, k: Square)
    requires RightsHome(cells, rights) && IsKing(cells, c, k) && Checkers(cells, c, k) != {} && m.kind == Castling
    ensures !CanCastle(cells, c, rights, m.from, m.to)
  {
    hide Attacks;
  }

  lemma KingInCheck(cells: Cells, c: Color, rights: bv4, ep: Option<Square>, m: Move, k: Square)
    requires RightsHome(cells, rights) && EpHome(cells, c, ep) && IsKing(cells, c, k)
    requires Checkers(cells, c, k) != {} && m.from == k && m.kind != Castling
    ensures InLegalList(cells, c, rights, ep, k, m) <==> PseudoLegal(cells, c, rights, ep, m) && SafeAfter(cells, c, k, m)
  {
    KingEvasionMeaning(cells, c, rights, ep, m, k);
    LiftedKingSeesMore(cells, c, k, m.to);
    hide NextCells, Rank, Attacks, KingAttacks, PawnAttacks, Intervening, CanCastle, RookAttacks, BishopAttacks;
  }

  lemma LiftedKingSeesMore(cells: Cells, c: Color, k: Square, to: Square)
    ensures Attackers(cells, to, cells.Keys) <= Attackers(cells, to, cells.Keys - {k})
  {
    forall s | s in cells && Attacks(cells[s], s, to, cells.Keys) ensures Attacks(cells[s], s, to, cells.Keys - {k}) {
      AttackParts(cells[s], s, to, cells.Keys, cells.Keys - {k});
      AttackParts(cells[s], s, to, cells.Keys - {k}, cells.Keys);
    }
  }

  // ---- the exclusion is real ----

  /** White: king a6, pawn e5. Black: king h1, rook h6, pawn d5, with d6 given as the en-passant
      square. The rook checks along the sixth rank and exd6 would stop it. The rook would have
      checked before d7-d5 too, so only a text describes this position. */
  const BLOCKED_BY_EP: Cells := map[40 := Piece(KING, WHITE), 36 := Piece(PAWN, WHITE), 7 := Piece(KING, BLACK),
                                  47 := Piece(ROOK, BLACK), 35 := Piece(PAWN, BLACK)]

  const BLOCKING_CAPTURE: Move := Move(36, 43, PAWN, EnPassant)

  lemma BlockingCaptureIsSafe()
    ensures SafeAfter(BLOCKED_BY_EP, WHITE, 40, BLOCKING_CAPTURE)
  {
    var m := BLOCKING_CAPTURE;
    var after := NextCells(BLOCKED_BY_EP, WHITE, m);
    assert after == map[40 := Piece(KING, WHITE), 43 := Piece(PAWN, WHITE), 7 := Piece(KING, BLACK), 47 := Piece(ROOK, BLACK)];
    UnattackedMeaning(after, 40, BLACK);
    assert !Clear(47, 40, after.Keys) by {
      assert InBetween(47, 43, 40);
    }
    assert !Attacks(Piece(ROOK, BLACK), 47, 40, after.Keys);
    assert !Attacks(Piece(KING, BLACK), 7, 40, after.Keys);
  }

  lemma RookSeesAlongSixth(occ: Bitboard)
    requires occ !! {41, 42, 43, 44, 45, 46}
    ensures Attacks(Piece(ROOK, BLACK), 47, 40, occ)
  {
    forall x: Square | InBetween(47, x, 40) ensures x in {41, 42, 43, 44, 45, 46} {
      assert 40 < x < 47;
    }
    hide InBetween;
  }

  lemma PawnLooksElsewhere(occ: Bitboard)
    ensures !Attacks(Piece(PAWN, BLACK), 35, 40, occ)
  {
    hide InBetween, Clear;
  }

  lemma BlockingCaptureChecks()
    ensures 47 in Checkers(BLOCKED_BY_EP, WHITE, 40) && 35 !in Checkers(BLOCKED_BY_EP, WHITE, 40)
  {
    hide Attacks;
    RookSeesAlongSixth(BLOCKED_BY_EP.Keys);
    PawnLooksElsewhere(BLOCKED_BY_EP.Keys);
  }

  lemma BlockingCaptureIsPseudoLegal()
    ensures IsKing(BLOCKED_BY_EP, WHITE, 40) && IsKing(BLOCKED_BY_EP, BLACK, 7) && EpHome(BLOCKED_BY_EP, WHITE, Some(43))
    ensures PseudoLegal(BLOCKED_BY_EP, WHITE, 0, Some(43), BLOCKING_CAPTURE)
  {
  }

  /** A well-formed board where a pseudo-legal, safe en-passant capture is not in the list. */
  lemma EpBlockIsMissed()
    ensures IsKing(BLOCKED_BY_EP, WHITE, 40) && IsKing(BLOCKED_BY_EP, BLACK, 7) && EpHome(BLOCKED_BY_EP, WHITE, Some(43))
    ensures PseudoLegal(BLOCKED_BY_EP, WHITE, 0, Some(43), BLOCKING_CAPTURE) && SafeAfter(BLOCKED_BY_EP, WHITE, 40, BLOCKING_CAPTURE)
    ensures !InLegalList(BLOCKED_BY_EP, WHITE, 0, Some(43), 40, BLOCKING_CAPTURE)
  {
    hide SafeAfter, InLegalList, Checkers, PseudoLegal, IsKing;
    BlockingCaptureIsPseudoLegal();
    BlockingCaptureIsSafe();
    BlockingCaptureChecks();
    LegalListExact(BLOCKED_BY_EP, WHITE, 0, Some(43), BLOCKING_CAPTURE, 40);
  }
}
