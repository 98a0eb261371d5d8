/** When the quiescence search may call a drawn position a mate: the empty move list it relies on
    is also the engine's answer to a game that has gone on too long. */
module Draws {
  import opened Types
  import opened Lookups
  import opened Rules
  import opened Legality
  import opened Pins
  import opened Evasions
  import opened Runs
  import opened Repetition

  /** The cut-offs of `legal_move_list`. */
  predicate Exhausted(p: Pos)
    requires p.history != []
  {
    p.Top().halfmoves >= 150 || RepeatCount(p.history) >= 4
  }

  /** `legal_move_list` comes back empty. */
  ghost predicate Stuck(p: Pos)
    requires p.history != []
  {
    Exhausted(p) || forall m :: !Legal(p, m)
  }

  ghost predicate ScoredAsMate(p: Pos)
    requires WellFormed(p)
  {
    InCheck(p.cells, p.stm) && Stuck(p)
  }

  ghost predicate Checkmate(p: Pos)
    requires WellFormed(p)
  {
    InCheck(p.cells, p.stm) && forall m :: !Safe(p, m)
  }

  /** Below the cut-offs, in every position after the root of a line, a drawn position in check is
      scored as a mate exactly when it is one; beyond them exactly when it is in check. */
  lemma MateScoreExact(z: Randoms, line: seq<Pos>, i: nat)
    requires Line(z, line) && 0 < i < |line|
    ensures WellFormed(line[i])
    ensures ScoredAsMate(line[i]) <==> Checkmate(line[i]) || (InCheck(line[i].cells, line[i].stm) && Exhausted(line[i]))
  {
    LineIsSound(z, line, i);
    hide Legal, Safe, Sound, WellFormed, HashOk, Step, Line, InCheck, Exhausted;
    forall m: Move ensures Legal(line[i], m) <==> Safe(line[i], m) {
      LineListComplete(z, line, i, m);
    }
  }

  // ---- a position scored as a mate that is none ----

  /** White: king a1, rook d1, to move. Black: king e8. */
  const ROOK_ENDING: Cells := map[0 := Piece(KING, WHITE), 3 := Piece(ROOK, WHITE), 60 := Piece(KING, BLACK)]

  const ROOK_CHECKS: Move := Move(3, 4, PAWN, Normal)

  const AFTER_CHECK: Cells := map[0 := Piece(KING, WHITE), 4 := Piece(ROOK, WHITE), 60 := Piece(KING, BLACK)]

  const KING_STEPS: Move := Move(60, 59, PAWN, Normal)

  const AFTER_STEP: Cells := map[0 := Piece(KING, WHITE), 4 := Piece(ROOK, WHITE), 59 := Piece(KING, BLACK)]

  /** The root after 149 half-moves without progress. */
  function LateRoot(z: Randoms): Pos {
    Pos(ROOK_ENDING, WHITE, 80, [State(0, None, None, None, Untyped, FullHash(z, ROOK_ENDING, WHITE, 0, None), 149)])
  }

  lemma Kings()
    ensures IsKing(ROOK_ENDING, WHITE, 0) && IsKing(ROOK_ENDING, BLACK, 60) && IsKing(AFTER_CHECK, BLACK, 60)
    ensures PawnsInside(ROOK_ENDING)
  {
  }

  lemma NotAttackedBefore()
    ensures !Attacked(ROOK_ENDING, 60, WHITE)
  {
    UnattackedMeaning(ROOK_ENDING, 60, WHITE);
    assert !Attacks(Piece(ROOK, WHITE), 3, 60, ROOK_ENDING.Keys) && !Attacks(Piece(KING, WHITE), 0, 60, ROOK_ENDING.Keys);
    hide Attacks;
  }

  lemma WhiteKingIsFar()
    ensures !Attacked(AFTER_CHECK, 0, BLACK)
  {
    UnattackedMeaning(AFTER_CHECK, 0, BLACK);
    assert !Attacks(Piece(KING, BLACK), 60, 0, AFTER_CHECK.Keys);
    hide Attacks;
  }

  lemma RookSeesUpFile(occ: Bitboard)
    requires forall x :: 4 < x < 60 ==> x !in occ
    ensures Attacks(Piece(ROOK, WHITE), 4, 60, occ)
  {
    forall x: Square | InBetween(4, x, 60) ensures 4 < x < 60 {
    }
    hide InBetween;
  }

  lemma RookGivesCheck()
    ensures Attacked(AFTER_CHECK, 60, WHITE)
  {
    hide Attacks, Attacked;
    UnattackedMeaning(AFTER_CHECK, 60, WHITE);
    RookSeesUpFile(AFTER_CHECK.Keys);
    assert Owns(AFTER_CHECK, WHITE, 4) && Attacks(AFTER_CHECK[4], 4, 60, AFTER_CHECK.Keys);
  }

  lemma StepEscapes()
    ensures !Attacked(AFTER_STEP, 59, WHITE)
  {
    UnattackedMeaning(AFTER_STEP, 59, WHITE);
    assert !Attacks(Piece(ROOK, WHITE), 4, 59, AFTER_STEP.Keys) && !Attacks(Piece(KING, WHITE), 0, 59, AFTER_STEP.Keys);
    hide Attacks;
  }

  lemma Boards()
    ensures WellTyped(ROOK_ENDING, WHITE, ROOK_CHECKS) && NextCells(ROOK_ENDING, WHITE, ROOK_CHECKS) == AFTER_CHECK
    ensures WellTyped(AFTER_CHECK, BLACK, KING_STEPS) && NextCells(AFTER_CHECK, BLACK, KING_STEPS) == AFTER_STEP
  {
  }

  lemma BothArePseudoLegal()
    ensures PseudoLegal(ROOK_ENDING, WHITE, 0, None, ROOK_CHECKS) && PseudoLegal(AFTER_CHECK, BLACK, 0, None, KING_STEPS)
  {
  }

  lemma TheKing(cells: Cells, c: Color, k: Square)
    requires IsKing(cells, c, k)
    ensures OneKing(cells, c) && KingSquare(cells, c) == k
  {
  }

  lemma LateRootIsSound(z: Randoms)
    ensures Sound(LateRoot(z)) && HashOk(z, LateRoot(z))
  {
    hide Attacked, IsKing, PawnsInside, FullHash;
    Kings();
    NotAttackedBefore();
    TheKing(ROOK_ENDING, WHITE, 0);
    TheKing(ROOK_ENDING, BLACK, 60);
  }

  lemma CheckIsLegal(z: Randoms)
    ensures Legal(LateRoot(z), ROOK_CHECKS) && WellTyped(ROOK_ENDING, WHITE, ROOK_CHECKS)
  {
    hide Attacked, IsKing, PawnsInside, FullHash, PseudoLegal, NextCells, WellTyped, Legal, OneKing, KingSquare;
    LateRootIsSound(z);
    Kings();
    TheKing(ROOK_ENDING, WHITE, 0);
    Boards();
    WhiteKingIsFar();
    BothArePseudoLegal();
    LegalIsSafe(LateRoot(z), ROOK_CHECKS);
  }

  lemma AfterTheCheck(z: Randoms, q: Pos)
    requires WellTyped(ROOK_ENDING, WHITE, ROOK_CHECKS) && q == Make(z, LateRoot(z), ROOK_CHECKS)
    ensures q.cells == AFTER_CHECK && q.stm == BLACK && q.history != []
    ensures q.Top().halfmoves == 150 && q.Top().rights == 0 && q.Top().ep == None
  {
    hide NextCells, NextHash, FullHash, WellTyped;
    Boards();
  }

  lemma TheKingEscapes(q: Pos)
    requires q.cells == AFTER_CHECK && q.stm == BLACK && q.history != [] && q.Top().rights == 0 && q.Top().ep == None
    ensures OneKing(q.cells, BLACK) && InCheck(q.cells, BLACK) && Safe(q, KING_STEPS)
  {
    hide Attacked, IsKing, PseudoLegal, NextCells, WellTyped, OneKing, KingSquare;
    Kings();
    TheKing(AFTER_CHECK, BLACK, 60);
    Boards();
    BothArePseudoLegal();
    StepEscapes();
    RookGivesCheck();
  }

  /** A checking move can reach the cut-off in a position that is scored as a mate although the
      king has a safe square. */
  lemma FalseMate(z: Randoms)
    ensures exists p: Pos, q: Pos ::
      Line(z, [p, q]) && WellFormed(q) && q.Top().halfmoves == 150 && ScoredAsMate(q) && !Checkmate(q) && Safe(q, KING_STEPS)
  {
    var p := LateRoot(z);
    assert p.history != [] && p.cells == ROOK_ENDING && p.stm == WHITE;
    hide FullHash, WellTyped, Safe, Legal, InCheck, OneKing, Make, HashOk, WellFormed, LateRoot, RepeatCount;
    LateRootIsSound(z);
    CheckIsLegal(z);
    var q := Make(z, p, ROOK_CHECKS);
    AfterTheCheck(z, q);
    LegalKeepsSound(z, p, ROOK_CHECKS);
    TheKingEscapes(q);
    assert MoveStep(z, p, ROOK_CHECKS, q);
    assert Line(z, [p, q]);
  }
}
