/** The sixteen bits in which an opening book writes a move. */
module BookMoves {
  import opened Types
  import opened Lookups
  import opened Rules
  import opened Legality
  import opened Pins

  /** A legal move as a book writes it: castling takes the own rook. */
  function Encode(m: Move): (code: int)
    ensures 0 <= code < 0x1_0000
  {
    var to := if m.kind == Castling then RookFrom(m.to) else m.to;
    to + 64 * m.from + 4096 * (if m.PromotionType().Some? then m.promotion else 0)
  }

  /** The rook's square of a castling entry names the king's. */
  function CastlingTo(to: Square): Square {
    if to == H1 then G1 else if to == A1 then C1 else if to == H8 then G8 else C8
  }

  predicate NamesCastling(from: Square, to: Square) {
    (from == E1 && (to == A1 || to == H1)) || (from == E8 && (to == A8 || to == H8))
  }

  /** `convert_polyglot_move`; none where it reads a piece that is not there or fails an assertion. */
  function Decode(cells: Cells, code: int): Option<Move>
    requires 0 <= code < 0x1_0000
  {
    DecodeParts(cells, code / 64 % 64, code % 64, code / 4096 % 8)
  }

  function DecodeParts(cells: Cells, from: Square, to: Square, bits: int): Option<Move>
    requires 0 <= bits < 8
  {
    if from !in cells || (NamesCastling(from, to) && cells[from].kind == KING && to !in cells) then None
    else if NamesCastling(from, to) && cells[from].kind == KING && cells[to].kind == ROOK then Some(Move(from, CastlingTo(to), PAWN, Castling))
    else
      var pawn, capture := cells[from].kind == PAWN, to in cells;
      var promotion := if bits > 4 then 0 else bits;
      if promotion == 0 then
        if pawn && (Rank(to) == 0 || Rank(to) == 7) then None
        else if capture then Some(Move(from, to, PAWN, Capture))
        else if pawn && ((Rank(to) == 3 && Rank(from) == 1) || (Rank(to) == 4 && Rank(from) == 6)) then Some(Move(from, to, PAWN, DoublePush))
        else Some(Move(from, to, PAWN, Normal))
      else Some(Move(from, to, if pawn then promotion else cells[from].kind, if capture then CapturePromotion else Promotion))
  }

  lemma CodeParts(to: Square, from: Square, bits: int)
    requires 0 <= bits < 8
    ensures
      var code := to + 64 * from + 4096 * bits;
      code % 64 == to && code / 64 % 64 == from && code / 4096 % 8 == bits
  {
    var code := to + 64 * from + 4096 * bits;
    assert code / 64 == from + 64 * bits && code / 4096 == bits;
  }

  /** The fields of an entry, lowest three bits first: target file and rank, source file and rank,
      promotion piece. A castling entry's target is the own rook, on the king's rank at the wing's end. */
  lemma CodeFields(cells: Cells, code: int)
    requires 0 <= code < 0x1_0000 && Decode(cells, code).Some?
    ensures
      var m := Decode(cells, code).value;
      && File(m.from) == code / 64 % 8 && Rank(m.from) == code / 512 % 8
      && (m.kind != Castling ==> File(m.to) == code % 8 && Rank(m.to) == code / 8 % 8)
      && (m.kind == Castling ==>
            && File(m.from) == 4 && Rank(m.to) == Rank(m.from) == code / 8 % 8 && Rank(m.from) in {0, 7}
            && ((File(m.to) == 6 && code % 8 == 7) || (File(m.to) == 2 && code % 8 == 0)))
      && ((m.kind == Promotion || m.kind == CapturePromotion) && m.from in cells && cells[m.from].kind == PAWN ==> m.promotion == code / 4096 % 8)
  {
    Split(code);
    hide Rank, File;
    Halves(code % 64);
    Halves(code / 64 % 64);
    Halves(E1);
    Halves(E8);
    Halves(A1);
    Halves(H1);
    Halves(A8);
    Halves(H8);
    Halves(C1);
    Halves(G1);
    Halves(C8);
    Halves(G8);
  }

  lemma Split(code: nat)
    ensures code % 64 % 8 == code % 8 && code % 64 / 8 == code / 8 % 8
    ensures code / 64 % 64 % 8 == code / 64 % 8 && code / 64 % 64 / 8 == code / 512 % 8
  {
    LowSix(code);
    LowSix(code / 64);
    Again(code);
  }

  lemma LowSix(x: nat)
    ensures x % 64 % 8 == x % 8 && x % 64 / 8 == x / 8 % 8
  {
    var b, a := x / 8, x % 8;
    var c, d := b / 8, b % 8;
    assert x == 64 * c + (8 * d + a) && 0 <= 8 * d + a < 64;
    assert x % 64 == 8 * d + a;
  }

  lemma Again(x: nat)
    ensures x / 64 / 8 == x / 512
  {
    var b, a := x / 64, x % 64;
    var c, d := b / 8, b % 8;
    assert x == 512 * c + (64 * d + a) && 0 <= 64 * d + a < 512;
  }

  lemma Halves(s: Square)
    ensures File(s) == s % 8 && Rank(s) == s / 8
  {
  }

  /** Every pseudo-legal move comes back from its sixteen bits, en passant as a plain pawn move. */
  lemma DecodeEncoded(cells: Cells, c: Color, rights: bv4, ep: Option<Square>, m: Move)
    requires RightsHome(cells, rights) && EpHome(cells, c, ep) && PawnsInside(cells) && PseudoLegal(cells, c, rights, ep, m)
    ensures Decode(cells, Encode(m)) == Some(if m.kind == EnPassant then m.(kind := Normal) else m)
  {
    CodeParts(if m.kind == Castling then RookFrom(m.to) else m.to, m.from, if m.PromotionType().Some? then m.promotion else 0);
    hide DecodeParts, PseudoLegal, RightsHome, EpHome, PawnsInside;
    if m.kind == Castling {
      CastlingDecodes(cells, c, rights, m);
    } else {
      StepDecodes(cells, c, rights, ep, m);
    }
  }

  lemma CastlingDecodes(cells: Cells, c: Color, rights: bv4, m: Move)
    requires RightsHome(cells, rights) && m.kind == Castling && m.promotion == PAWN && CanCastle(cells, c, rights, m.from, m.to)
    ensures m.PromotionType().None? && DecodeParts(cells, m.from, RookFrom(m.to), 0) == Some(m)
  {
    CastlingIsWellTyped(cells, c, rights, m);
    hide RightsHome, Attacked;
  }

  lemma StepDecodes(cells: Cells, c: Color, rights: bv4, ep: Option<Square>, m: Move)
    requires EpHome(cells, c, ep) && PawnsInside(cells) && PseudoLegal(cells, c, rights, ep, m) && m.kind != Castling
    ensures DecodeParts(cells, m.from, m.to, if m.PromotionType().Some? then m.promotion else 0) ==
      Some(if m.kind == EnPassant then m.(kind := Normal) else m)
  {
    KingStays(m.from, m.to, c, cells.Keys);
    if m.from in cells && cells[m.from].kind == PAWN {
      PawnRanks(cells, c, ep, m);
    }
    hide Attacks, Rank, EpHome, PawnsInside, OnRank;
  }

  lemma KingStays(s: Square, t: Square, c: Color, occ: Bitboard)
    ensures NamesCastling(s, t) ==> !Attacks(Piece(KING, c), s, t, occ)
  {
  }

  /** Which ranks a pawn move of each kind joins. */
  lemma PawnRanks(cells: Cells, c: Color, ep: Option<Square>, m: Move)
    requires EpHome(cells, c, ep) && PawnsInside(cells) && Holds(cells, m.from, PAWN, c)
    ensures m.to == PawnShift(m.from, c) || Attacks(Piece(PAWN, c), m.from, m.to, cells.Keys) ==> Abs(Rank(m.to) - Rank(m.from)) == 1
    ensures m.to == PawnShift(m.from, c) || Attacks(Piece(PAWN, c), m.from, m.to, cells.Keys) ==>
      (OnRank(m.from, c, 6) <==> Rank(m.to) == 0 || Rank(m.to) == 7)
    ensures OnRank(m.from, c, 1) && m.to == (if c == WHITE then m.from + 16 else m.from - 16) ==>
      (Rank(m.from) == 1 && Rank(m.to) == 3) || (Rank(m.from) == 6 && Rank(m.to) == 4)
    ensures ep == Some(m.to) ==> Rank(m.to) == 2 || Rank(m.to) == 5
  {
  }
}
