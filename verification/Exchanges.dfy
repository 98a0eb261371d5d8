/** What the exchange value of a move is the value of: the pieces that leave the board and the one
    that stands on the target afterwards. */
module Exchanges {
  import opened Types
  import opened Lookups
  import opened Rules
  import opened Legality
  import opened Pins
  import opened See
  import Histories

  /** The square of the piece a capture takes. */
  function VictimSquare(c: Color, m: Move): int {
    if m.kind == EnPassant then Behind(m.to, c) else m.to
  }

  /** The material taken off the other side by the move. */
  function Taken(cells: Cells, c: Color, m: Move): int {
    var s := VictimSquare(c, m);
    if 0 <= s < 64 && s in cells && cells[s].color == Other(c) then Value(cells[s].kind) else 0
  }

  /** The piece at risk is the one on the target after the move, and what can be seen from there is
      the board after the move. */
  lemma AtRisk(cells: Cells, c: Color, rights: bv4, ep: Option<Square>, m: Move)
    requires RightsHome(cells, rights) && EpHome(cells, c, ep) && PseudoLegal(cells, c, rights, ep, m)
    ensures WellTyped(cells, c, m) && m.to in NextCells(cells, c, m)
    ensures MovingValue(cells, m) == Value(NextCells(cells, c, m)[m.to].kind)
    ensures m.kind != Castling ==> ExchangeOccupancy(cells, c, m) - {m.to} == NextCells(cells, c, m).Keys - {m.to}
    ensures IsCapture(m) ==> CapturedValue(cells, m) == Taken(cells, c, m)
  {
    PseudoLegalIsWellTyped(cells, c, rights, ep, m);
    Promoted(cells, c, rights, ep, m);
    hide PseudoLegal, RightsHome, EpHome, Value;
    PawnIsHundred();
  }

  lemma PawnIsHundred()
    ensures Value(PAWN) == 100
  {
  }

  /** Promotion bits are there exactly on promotions, and kind and target agree. */
  lemma Promoted(cells: Cells, c: Color, rights: bv4, ep: Option<Square>, m: Move)
    requires RightsHome(cells, rights) && EpHome(cells, c, ep) && PseudoLegal(cells, c, rights, ep, m)
    ensures m.from in cells && m.kind != Untyped
    ensures m.PromotionType().Some? <==> m.kind == Promotion || m.kind == CapturePromotion
    ensures m.to in cells <==> m.kind == Capture || m.kind == CapturePromotion
  {
    PseudoLegalIsWellTyped(cells, c, rights, ep, m);
    hide Attacks, CanCastle, RightsHome;
  }

  /** The victim move ordering goes by is the piece taken. */
  lemma VictimIsTaken(cells: Cells, c: Color, rights: bv4, ep: Option<Square>, m: Move)
    requires RightsHome(cells, rights) && EpHome(cells, c, ep) && PseudoLegal(cells, c, rights, ep, m) && IsCapture(m)
    ensures Taken(cells, c, m) == Value(Histories.Victim(cells, m))
    ensures
      var s := VictimSquare(c, m);
      0 <= s < 64 && s in cells && cells[s] == Piece(Histories.Victim(cells, m), Other(c))
  {
    PseudoLegalIsWellTyped(cells, c, rights, ep, m);
    Promoted(cells, c, rights, ep, m);
    hide PseudoLegal, RightsHome, EpHome, Value;
  }

  /** A capture nets at most what it takes, and at least that minus the piece then on the target. */
  lemma NetBounds(cells: Cells, c: Color, rights: bv4, ep: Option<Square>, m: Move)
    requires RightsHome(cells, rights) && EpHome(cells, c, ep) && PseudoLegal(cells, c, rights, ep, m) && IsCapture(m)
    ensures WellTyped(cells, c, m) && m.to in NextCells(cells, c, m)
    ensures Taken(cells, c, m) - Value(NextCells(cells, c, m)[m.to].kind) <= Exchange(cells, c, m) <= Taken(cells, c, m)
  {
    AtRisk(cells, c, rights, ep, m);
    Promoted(cells, c, rights, ep, m);
    ExchangeBounds(cells, c, m);
    hide PseudoLegal, RightsHome, EpHome, Exchange, NextCells, WellTyped, Value, Taken;
  }

  /** Those of the other side that can take back on the target. */
  function Retakers(cells: Cells, c: Color, m: Move): Bitboard {
    Hitters(cells, m.to, ExchangeOccupancy(cells, c, m)) * Side(cells, Other(c))
  }

  /** Those of the mover's side that could answer a retake from `s`. */
  function Answerers(cells: Cells, c: Color, m: Move, s: Square): Bitboard {
    Hitters(cells, m.to, ExchangeOccupancy(cells, c, m) - {s}) * Side(cells, c)
  }

  /** The short exchanges. Nobody can take back: the capture nets what it takes. A piece other than
      the king can, and nobody answers: it nets that minus the piece then on the target. Only the
      king can, and is answered: it nets what it takes. */
  lemma ShortExchanges(cells: Cells, c: Color, rights: bv4, ep: Option<Square>, m: Move)
    requires RightsHome(cells, rights) && EpHome(cells, c, ep) && PseudoLegal(cells, c, rights, ep, m) && IsCapture(m)
    ensures WellTyped(cells, c, m) && m.to in NextCells(cells, c, m)
    ensures Retakers(cells, c, m) == {} ==> Exchange(cells, c, m) == Taken(cells, c, m)
    ensures (exists s :: s in Retakers(cells, c, m) && cells[s].kind != KING) && (forall s :: s in Retakers(cells, c, m) ==> Answerers(cells, c, m, s) == {}) ==>
      Exchange(cells, c, m) == Taken(cells, c, m) - Value(NextCells(cells, c, m)[m.to].kind)
    ensures (forall s :: s in Retakers(cells, c, m) ==> cells[s].kind == KING && Answerers(cells, c, m, s) != {}) ==>
      Exchange(cells, c, m) == Taken(cells, c, m)
  {
    AtRisk(cells, c, rights, ep, m);
    Promoted(cells, c, rights, ep, m);
    FirstReply(cells, c, m);
    hide PseudoLegal, RightsHome, EpHome, NextCells, WellTyped, Value, Taken, SeeRec, Hitters, ExchangeOccupancy, MovingValue, CapturedValue, Retakers, Answerers;
  }

  lemma FirstReply(cells: Cells, c: Color, m: Move)
    requires m.from in cells
    ensures
      var reply := SeeRec(cells, ExchangeOccupancy(cells, c, m), m.to, Other(c), MovingValue(cells, m), 0);
      && (Retakers(cells, c, m) == {} ==> reply == 0)
      && ((exists s :: s in Retakers(cells, c, m) && cells[s].kind != KING) && (forall s :: s in Retakers(cells, c, m) ==> Answerers(cells, c, m, s) == {}) ==>
            reply == MovingValue(cells, m))
      && ((forall s :: s in Retakers(cells, c, m) ==> cells[s].kind == KING && Answerers(cells, c, m, s) != {}) ==> reply == 0)
  {
    var occ, mine := ExchangeOccupancy(cells, c, m), Retakers(cells, c, m);
    MovingIsPositive(cells, m);
    hide Hitters, ExchangeOccupancy, MovingValue, Value, Side;
    assert Other(Other(c)) == c;
    if mine != {} {
      var from := LeastValuable(cells, mine, PAWN);
      hide LeastValuable;
      assert Hitters(cells, m.to, occ - {from}) * Side(cells, Other(Other(c))) == Answerers(cells, c, m, from);
    }
  }

  lemma MovingIsPositive(cells: Cells, m: Move)
    requires m.from in cells
    ensures MovingValue(cells, m) > 0
  {
  }

  /** A move that takes nothing gains what its piece is worth more on the target than before. */
  lemma QuietGain(cells: Cells, c: Color, rights: bv4, ep: Option<Square>, m: Move)
    requires RightsHome(cells, rights) && EpHome(cells, c, ep) && PseudoLegal(cells, c, rights, ep, m) && !IsCapture(m)
    ensures WellTyped(cells, c, m) && m.to in NextCells(cells, c, m)
    ensures Exchange(cells, c, m) == Value(NextCells(cells, c, m)[m.to].kind) - Value(cells[m.from].kind)
  {
    AtRisk(cells, c, rights, ep, m);
    Promoted(cells, c, rights, ep, m);
    PseudoLegalIsWellTyped(cells, c, rights, ep, m);
    hide PseudoLegal, RightsHome, EpHome, NextCells, SeeRec;
  }

  /** What the types are worth in centipawns; dearer types are worth more. */
  lemma PieceValues(j: PieceType, k: PieceType)
    ensures Value(PAWN) == 100 && Value(KNIGHT) == 320 && Value(BISHOP) == 330
    ensures Value(ROOK) == 500 && Value(QUEEN) == 900 && Value(KING) == 20000
    ensures j < k <==> Value(j) < Value(k)
  {
  }
}
