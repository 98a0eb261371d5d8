/** The moves of chess in file and rank coordinates, against what the generators' specification and
    the mailbox rules say with square numbers and tables. */
module Rulebook {
  import opened Types
  import opened Lookups
  import opened Rules
  import opened Legality
  import opened Pins
  import opened Runs

  /** The way a colour's pawns go, and its first rank. */
  function Forward(c: Color): int {
    if c == WHITE then 1 else -1
  }

  function HomeRank(c: Color): int {
    if c == WHITE then 0 else 7
  }

  function LastRank(c: Color): int {
    7 - HomeRank(c)
  }

  predicate OnSquare(s: Square, f: int, r: int) {
    File(s) == f && Rank(s) == r
  }

  // ---- castling ----

  /** The right to castle on one wing, by colour. */
  predicate HasRight(rights: bv4, c: Color, kingside: bool) {
    rights & (if c == WHITE then (if kingside then 1 else 2) else if kingside then 4 else 8) != 0
  }

  /** One wing by the book: king and rook on their first rank, the right not lost, nothing between
      them, and the king neither in check nor crossing nor reaching an attacked square. */
  predicate WingByTheBook(cells: Cells, c: Color, rights: bv4, from: Square, to: Square, rook: Square, kingside: bool) {
    && OnSquare(from, 4, HomeRank(c)) && OnSquare(to, if kingside then 6 else 2, HomeRank(c))
    && OnSquare(rook, if kingside then 7 else 0, HomeRank(c))
    && HasRight(rights, c, kingside) && Holds(cells, from, KING, c) && Holds(cells, rook, ROOK, c)
    && Clear(from, rook, cells.Keys)
    && forall s: Square :: s == from || s == to || InBetween(from, s, to) ==> !Attacked(cells, s, Other(c))
  }

  predicate CastlesByTheBook(cells: Cells, c: Color, rights: bv4, from: Square, to: Square) {
    exists rook: Square, kingside: bool :: WingByTheBook(cells, c, rights, from, to, rook, kingside)
  }

  lemma RowBetween(a: Square, s: Square, b: Square)
    requires Rank(a) == Rank(b)
    ensures InBetween(a, s, b) <==> s == 8 * Rank(a) + File(s) && StrictlyInside(File(a), File(s), File(b))
  {
    assert s == 8 * Rank(s) + File(s);
  }

  lemma OnRow(s: Square, r: int, low: int, high: int)
    requires 0 <= r < 8 && 0 <= low <= high < 8
    ensures 8 * r + low <= s <= 8 * r + high <==> s == 8 * r + File(s) && low <= File(s) <= high
  {
    assert s == 8 * Rank(s) + File(s);
  }

  /** What a wing's king squares and corner are in coordinates. */
  lemma Corners(c: Color, kingside: bool)
    ensures
      var from, to := if c == WHITE then E1 else E8, if c == WHITE then (if kingside then G1 else C1) else if kingside then G8 else C8;
      && OnSquare(from, 4, HomeRank(c)) && OnSquare(to, if kingside then 6 else 2, HomeRank(c))
      && OnSquare(RookFrom(to), if kingside then 7 else 0, HomeRank(c))
  {
  }

  /** Which squares lie between them. */
  lemma Wing(c: Color, kingside: bool)
    ensures
      var from, to := if c == WHITE then E1 else E8, if c == WHITE then (if kingside then G1 else C1) else if kingside then G8 else C8;
      && OnSquare(from, 4, HomeRank(c)) && OnSquare(to, if kingside then 6 else 2, HomeRank(c))
      && OnSquare(RookFrom(to), if kingside then 7 else 0, HomeRank(c))
      && (forall s: Square :: InBetween(from, s, to) <==> s == RookTo(to))
      && (forall s: Square :: InBetween(from, s, RookFrom(to)) <==> s in CastlingGap(to))
  {
    Corners(c, kingside);
    var from, to: Square := if c == WHITE then E1 else E8, if c == WHITE then (if kingside then G1 else C1) else if kingside then G8 else C8;
    hide InBetween, File, Rank;
    forall s: Square
      ensures InBetween(from, s, to) <==> s == RookTo(to)
      ensures InBetween(from, s, RookFrom(to)) <==> s in CastlingGap(to)
    {
      RowBetween(from, s, to);
      RowBetween(from, s, RookFrom(to));
      OnRow(s, HomeRank(c), if kingside then 5 else 3, if kingside then 5 else 3);
      OnRow(s, HomeRank(c), if kingside then 5 else 1, if kingside then 6 else 3);
    }
  }

  lemma OneSquare(s: Square, t: Square, f: int, r: int)
    requires OnSquare(s, f, r) && OnSquare(t, f, r)
    ensures s == t
  {
  }

  /** The generator castles exactly by the book. */
  lemma CastlingByTheBook(cells: Cells, c: Color, rights: bv4, from: Square, to: Square)
    requires RightsHome(cells, rights)
    ensures CanCastle(cells, c, rights, from, to) <==> CastlesByTheBook(cells, c, rights, from, to)
  {
    hide CanCastle, WingByTheBook, RightsHome;
    if CanCastle(cells, c, rights, from, to) {
      CastlesOneWing(cells, c, rights, from, to);
    }
    if rook: Square, kingside: bool :| WingByTheBook(cells, c, rights, from, to, rook, kingside) {
      BookCastles(cells, c, rights, from, to, rook, kingside);
    }
  }

  lemma CastlesOneWing(cells: Cells, c: Color, rights: bv4, from: Square, to: Square)
    requires RightsHome(cells, rights) && CanCastle(cells, c, rights, from, to)
    ensures WingByTheBook(cells, c, rights, from, to, RookFrom(to), to == G1 || to == G8)
  {
    Wing(c, to == G1 || to == G8);
    hide InBetween, Attacked, File, Rank, OnSquare, Clear;
    GapIsClear(cells, from, to);
  }

  lemma GapIsClear(cells: Cells, from: Square, to: Square)
    requires (forall s: Square :: InBetween(from, s, RookFrom(to)) <==> s in CastlingGap(to)) && CastlingGap(to) !! cells.Keys
    ensures Clear(from, RookFrom(to), cells.Keys)
  {
    hide InBetween, CastlingGap;
  }

  lemma BookCastles(cells: Cells, c: Color, rights: bv4, from: Square, to: Square, rook: Square, kingside: bool)
    requires WingByTheBook(cells, c, rights, from, to, rook, kingside)
    ensures CanCastle(cells, c, rights, from, to)
  {
    Wing(c, kingside);
    var king, there := if c == WHITE then E1 else E8, if c == WHITE then (if kingside then G1 else C1) else if kingside then G8 else C8;
    OneSquare(from, king, 4, HomeRank(c));
    OneSquare(to, there, if kingside then 6 else 2, HomeRank(c));
    OneSquare(rook, RookFrom(to), if kingside then 7 else 0, HomeRank(c));
    hide InBetween, Attacked, File, Rank, OnSquare;
    assert CastlingGap(to) !! cells.Keys;
  }

  /** The board after castling: king on its target, rook on the square the king crossed, the corner
      and the king's home empty, nothing else changed. */
  predicate CastledBoard(cells: Cells, c: Color, m: Move, corner: Square, crossed: Square, next: Cells) {
    && OnSquare(corner, if File(m.to) > File(m.from) then 7 else 0, Rank(m.from)) && InBetween(m.from, crossed, m.to)
    && Holds(next, m.to, KING, c) && Holds(next, crossed, ROOK, c) && m.from !in next && corner !in next
    && forall s: Square :: s !in {m.from, m.to, corner, crossed} ==> (s in next <==> s in cells) && (s in cells ==> next[s] == cells[s])
  }

  lemma CastlingPlaces(cells: Cells, c: Color, rights: bv4, m: Move)
    requires RightsHome(cells, rights) && m.kind == Castling && CanCastle(cells, c, rights, m.from, m.to)
    ensures WellTyped(cells, c, m)
    ensures exists corner: Square, crossed: Square :: CastledBoard(cells, c, m, corner, crossed, NextCells(cells, c, m))
  {
    CastlingIsWellTyped(cells, c, rights, m);
    CastlingSquares(cells, c, rights, m);
    CastlingBoard(cells, c, rights, m);
    hide InBetween, Attacked, File, Rank, NextCells, CanCastle, RightsHome, OnSquare, Holds, RookFrom, RookTo, WellTyped;
    assert CastledBoard(cells, c, m, RookFrom(m.to), RookTo(m.to), NextCells(cells, c, m));
  }

  lemma CastlingSquares(cells: Cells, c: Color, rights: bv4, m: Move)
    requires CanCastle(cells, c, rights, m.from, m.to)
    ensures OnSquare(RookFrom(m.to), if File(m.to) > File(m.from) then 7 else 0, Rank(m.from)) && InBetween(m.from, RookTo(m.to), m.to)
  {
    Wing(c, m.to == G1 || m.to == G8);
    hide InBetween, Attacked, RookTo, CastlingGap;
  }

  lemma CastlingBoard(cells: Cells, c: Color, rights: bv4, m: Move)
    requires RightsHome(cells, rights) && m.kind == Castling && CanCastle(cells, c, rights, m.from, m.to) && WellTyped(cells, c, m)
    ensures
      var next := NextCells(cells, c, m);
      && Holds(next, m.to, KING, c) && Holds(next, RookTo(m.to), ROOK, c) && m.from !in next && RookFrom(m.to) !in next
      && forall s: Square :: s !in {m.from, m.to, RookFrom(m.to), RookTo(m.to)} ==>
           (s in next <==> s in cells) && (s in cells ==> next[s] == cells[s])
  {
    hide Attacked;
  }

  // ---- all moves ----

  /** A pawn step by the book: one square, two from the second rank, or diagonally onto an enemy or
      the square just crossed. */
  predicate PawnByTheBook(cells: Cells, c: Color, ep: Option<Square>, m: Move) {
    var df, forward := File(m.to) - File(m.from), (Rank(m.to) - Rank(m.from)) * Forward(c);
    || (df == 0 && forward == 1 && m.to !in cells)
    || (&& df == 0 && forward == 2 && Rank(m.from) == HomeRank(c) + Forward(c) && m.to !in cells
        && forall s: Square :: InBetween(m.from, s, m.to) ==> s !in cells)
    || (Abs(df) == 1 && forward == 1 && (Owns(cells, Other(c), m.to) || ep == Some(m.to)))
  }

  /** The kind a move by the book carries. */
  function KindByTheBook(cells: Cells, c: Color, m: Move): MoveType
    requires m.from in cells
  {
    var pawn, taking := cells[m.from].kind == PAWN, m.to in cells;
    if pawn && Rank(m.to) == LastRank(c) then if taking then CapturePromotion else Promotion
    else if taking then Capture
    else if pawn && File(m.to) != File(m.from) then EnPassant
    else if pawn && Abs(Rank(m.to) - Rank(m.from)) == 2 then DoublePush
    else if cells[m.from].kind == KING && Abs(File(m.to) - File(m.from)) == 2 then Castling
    else Normal
  }

  /** A move by the book, king safety aside: a piece goes where it attacks and no own piece stands, a
      pawn as above, a king may castle; a pawn on the last rank becomes a knight, bishop, rook or queen. */
  predicate ByTheBook(cells: Cells, c: Color, rights: bv4, ep: Option<Square>, m: Move) {
    && Owns(cells, c, m.from) && !Owns(cells, c, m.to) && m.kind == KindByTheBook(cells, c, m)
    && (if cells[m.from].kind == PAWN && Rank(m.to) == LastRank(c) then m.promotion in {KNIGHT, BISHOP, ROOK, QUEEN} else m.promotion == PAWN)
    && if cells[m.from].kind == PAWN then PawnByTheBook(cells, c, ep, m)
       else Attacks(cells[m.from], m.from, m.to, cells.Keys) || (cells[m.from].kind == KING && CastlesByTheBook(cells, c, rights, m.from, m.to))
  }

  lemma PawnCoordinates(cells: Cells, c: Color, m: Move)
    ensures m.to == PawnShift(m.from, c) <==> File(m.to) == File(m.from) && (Rank(m.to) - Rank(m.from)) * Forward(c) == 1
    ensures m.to == (if c == WHITE then m.from + 16 else m.from - 16) <==>
      File(m.to) == File(m.from) && (Rank(m.to) - Rank(m.from)) * Forward(c) == 2
    ensures Attacks(Piece(PAWN, c), m.from, m.to, cells.Keys) <==>
      Abs(File(m.to) - File(m.from)) == 1 && (Rank(m.to) - Rank(m.from)) * Forward(c) == 1
    ensures OnRank(m.from, c, 1) <==> Rank(m.from) == HomeRank(c) + Forward(c)
    ensures (Rank(m.to) - Rank(m.from)) * Forward(c) == 1 ==> (OnRank(m.from, c, 6) <==> Rank(m.to) == LastRank(c))
    ensures (Rank(m.to) - Rank(m.from)) * Forward(c) == 2 && OnRank(m.from, c, 1) ==> Rank(m.to) != LastRank(c)
    ensures (Rank(m.to) - Rank(m.from)) * Forward(c) in {1, 2} ==> Abs(Rank(m.to) - Rank(m.from)) == (Rank(m.to) - Rank(m.from)) * Forward(c)
  {
  }

  lemma CrossedSquare(c: Color, m: Move, s: Square)
    requires File(m.to) == File(m.from) && (Rank(m.to) - Rank(m.from)) * Forward(c) == 2
    ensures InBetween(m.from, s, m.to) <==> s == PawnShift(m.from, c)
    ensures 0 <= PawnShift(m.from, c) < 64
  {
    OneFileApart(File(m.from), Rank(m.from), File(s), Rank(s), File(m.to), Rank(m.to));
    hide InBetween;
    assert InBetween(m.from, s, m.to) <==> Inside(File(m.from), Rank(m.from), File(s), Rank(s), File(m.to), Rank(m.to)) by {
      BetweenIsInside(m.from, s, m.to);
    }
  }

  lemma BetweenIsInside(a: Square, m: Square, b: Square)
    ensures InBetween(a, m, b) <==> Inside(File(a), Rank(a), File(m), Rank(m), File(b), Rank(b))
  {
  }

  lemma PawnKinds(cells: Cells, c: Color, rights: bv4, ep: Option<Square>, m: Move)
    requires RightsHome(cells, rights) && EpHome(cells, c, ep) && PawnsInside(cells) && Holds(cells, m.from, PAWN, c)
    ensures PseudoLegal(cells, c, rights, ep, m) <==> ByTheBook(cells, c, rights, ep, m)
  {
    hide PseudoLegal, ByTheBook, File, Rank, RightsHome, EpHome, PawnsInside, Forward;
    var df, forward := File(m.to) - File(m.from), (Rank(m.to) - Rank(m.from)) * Forward(c);
    if df == 0 && forward == 2 {
      PawnTwoSteps(cells, c, rights, ep, m);
    } else if df == 0 && forward == 1 {
      PawnOneStep(cells, c, rights, ep, m);
    } else if Abs(df) == 1 && forward == 1 {
      PawnDiagonal(cells, c, rights, ep, m);
    } else {
      PawnNowhere(cells, c, rights, ep, m);
    }
  }

  lemma PawnTwoSteps(cells: Cells, c: Color, rights: bv4, ep: Option<Square>, m: Move)
    requires RightsHome(cells, rights) && EpHome(cells, c, ep) && PawnsInside(cells) && Holds(cells, m.from, PAWN, c)
    requires File(m.to) == File(m.from) && (Rank(m.to) - Rank(m.from)) * Forward(c) == 2
    ensures PseudoLegal(cells, c, rights, ep, m) <==> ByTheBook(cells, c, rights, ep, m)
  {
    PawnCoordinates(cells, c, m);
    PawnInside(cells, c, m);
    NoPawnCastles(cells, c, rights, m);
    forall s: Square ensures InBetween(m.from, s, m.to) <==> s == PawnShift(m.from, c) {
      CrossedSquare(c, m, s);
    }
    SameStep(m, c);
    hide Attacks, CanCastle, CastlesByTheBook, InBetween, File, Rank, RightsHome, EpHome, PawnsInside, OnRank, HomeRank, PawnShift, Forward;
  }

  lemma PawnOneStep(cells: Cells, c: Color, rights: bv4, ep: Option<Square>, m: Move)
    requires RightsHome(cells, rights) && EpHome(cells, c, ep) && PawnsInside(cells) && Holds(cells, m.from, PAWN, c)
    requires File(m.to) == File(m.from) && (Rank(m.to) - Rank(m.from)) * Forward(c) == 1
    ensures PseudoLegal(cells, c, rights, ep, m) <==> ByTheBook(cells, c, rights, ep, m)
  {
    PawnCoordinates(cells, c, m);
    PawnInside(cells, c, m);
    NoPawnCastles(cells, c, rights, m);
    hide Attacks, CanCastle, CastlesByTheBook, InBetween, File, Rank, RightsHome, EpHome, PawnsInside, OnRank, HomeRank, PawnShift, Forward;
  }

  lemma PawnDiagonal(cells: Cells, c: Color, rights: bv4, ep: Option<Square>, m: Move)
    requires RightsHome(cells, rights) && EpHome(cells, c, ep) && PawnsInside(cells) && Holds(cells, m.from, PAWN, c)
    requires Abs(File(m.to) - File(m.from)) == 1 && (Rank(m.to) - Rank(m.from)) * Forward(c) == 1
    ensures PseudoLegal(cells, c, rights, ep, m) <==> ByTheBook(cells, c, rights, ep, m)
  {
    PawnCoordinates(cells, c, m);
    PawnInside(cells, c, m);
    NoPawnCastles(cells, c, rights, m);
    EpInside(cells, c, ep);
    hide Attacks, CanCastle, CastlesByTheBook, InBetween, File, Rank, RightsHome, EpHome, PawnsInside, OnRank, HomeRank, PawnShift, Forward;
  }

  lemma PawnNowhere(cells: Cells, c: Color, rights: bv4, ep: Option<Square>, m: Move)
    requires RightsHome(cells, rights) && EpHome(cells, c, ep) && PawnsInside(cells) && Holds(cells, m.from, PAWN, c)
    requires File(m.to) == File(m.from) ==> (Rank(m.to) - Rank(m.from)) * Forward(c) !in {1, 2}
    requires Abs(File(m.to) - File(m.from)) == 1 ==> (Rank(m.to) - Rank(m.from)) * Forward(c) != 1
    ensures PseudoLegal(cells, c, rights, ep, m) <==> ByTheBook(cells, c, rights, ep, m)
  {
    PawnCoordinates(cells, c, m);
    PawnInside(cells, c, m);
    NoPawnCastles(cells, c, rights, m);
    hide Attacks, CanCastle, CastlesByTheBook, InBetween, File, Rank, RightsHome, EpHome, PawnsInside, OnRank, HomeRank, PawnShift, Forward;
  }

  lemma SameStep(m: Move, c: Color)
    requires File(m.to) == File(m.from) && (Rank(m.to) - Rank(m.from)) * Forward(c) == 2
    ensures 0 <= PawnShift(m.from, c) < 64
  {
  }

  lemma PawnInside(cells: Cells, c: Color, m: Move)
    requires PawnsInside(cells) && Holds(cells, m.from, PAWN, c)
    ensures Rank(m.from) != LastRank(c) && Rank(m.from) != HomeRank(c)
  {
  }

  lemma EpInside(cells: Cells, c: Color, ep: Option<Square>)
    requires EpHome(cells, c, ep)
    ensures ep.Some? ==> ep.value !in cells && Rank(ep.value) != LastRank(c)
  {
  }

  lemma NoPawnCastles(cells: Cells, c: Color, rights: bv4, m: Move)
    requires RightsHome(cells, rights) && Holds(cells, m.from, PAWN, c)
    ensures !CanCastle(cells, c, rights, m.from, m.to)
  {
    hide Attacked;
  }

  lemma KingAttackIsNear(s: Square, t: Square, c: Color, occ: Bitboard)
    ensures Attacks(Piece(KING, c), s, t, occ) ==> Abs(File(t) - File(s)) <= 1
  {
  }

  lemma BookCastlingShape(cells: Cells, c: Color, rights: bv4, from: Square, to: Square)
    requires CastlesByTheBook(cells, c, rights, from, to)
    ensures Holds(cells, from, KING, c) && to !in cells && Abs(File(to) - File(from)) == 2
  {
    var rook: Square, kingside: bool :| WingByTheBook(cells, c, rights, from, to, rook, kingside);
    RowBetween(from, to, rook);
    hide InBetween, Attacked;
    assert InBetween(from, to, rook);
  }

  lemma KingKinds(cells: Cells, c: Color, rights: bv4, ep: Option<Square>, m: Move)
    requires RightsHome(cells, rights) && Holds(cells, m.from, KING, c)
    ensures PseudoLegal(cells, c, rights, ep, m) <==> ByTheBook(cells, c, rights, ep, m)
  {
    CastlingByTheBook(cells, c, rights, m.from, m.to);
    KingAttackIsNear(m.from, m.to, c, cells.Keys);
    if CastlesByTheBook(cells, c, rights, m.from, m.to) {
      BookCastlingShape(cells, c, rights, m.from, m.to);
    }
    hide Attacks, CanCastle, CastlesByTheBook, PawnByTheBook, Promotes, Pushes, File, Rank, RightsHome, OnRank, HomeRank;
  }

  lemma OnlyKingsCastle(cells: Cells, c: Color, rights: bv4, m: Move)
    requires RightsHome(cells, rights) && Owns(cells, c, m.from) && cells[m.from].kind != KING
    ensures !CanCastle(cells, c, rights, m.from, m.to)
  {
    hide Attacked;
  }

  lemma OtherKinds(cells: Cells, c: Color, rights: bv4, ep: Option<Square>, m: Move)
    requires RightsHome(cells, rights) && Owns(cells, c, m.from) && cells[m.from].kind != PAWN && cells[m.from].kind != KING
    ensures PseudoLegal(cells, c, rights, ep, m) <==> ByTheBook(cells, c, rights, ep, m)
  {
    OnlyKingsCastle(cells, c, rights, m);
    hide Attacks, CanCastle, CastlesByTheBook, PawnByTheBook, Promotes, Pushes, File, Rank, RightsHome, OnRank, HomeRank;
  }

  /** The generators' specification is the book's, king safety aside. */
  lemma PseudoLegalByTheBook(cells: Cells, c: Color, rights: bv4, ep: Option<Square>, m: Move)
    requires RightsHome(cells, rights) && EpHome(cells, c, ep) && PawnsInside(cells)
    ensures PseudoLegal(cells, c, rights, ep, m) <==> ByTheBook(cells, c, rights, ep, m)
  {
    if Holds(cells, m.from, PAWN, c) {
      PawnKinds(cells, c, rights, ep, m);
    } else if Holds(cells, m.from, KING, c) {
      KingKinds(cells, c, rights, ep, m);
    } else if Owns(cells, c, m.from) {
      OtherKinds(cells, c, rights, ep, m);
    } else {
      OwnMover(cells, c, rights, ep, m);
      BookOwnMover(cells, c, rights, ep, m);
    }
    hide PseudoLegal, ByTheBook, RightsHome, EpHome, PawnsInside;
  }

  lemma OwnMover(cells: Cells, c: Color, rights: bv4, ep: Option<Square>, m: Move)
    requires RightsHome(cells, rights)
    ensures PseudoLegal(cells, c, rights, ep, m) ==> Owns(cells, c, m.from)
  {
    hide Attacks, Rank, Attacked;
  }

  lemma BookOwnMover(cells: Cells, c: Color, rights: bv4, ep: Option<Square>, m: Move)
    ensures ByTheBook(cells, c, rights, ep, m) ==> Owns(cells, c, m.from)
  {
  }

  // ---- the board after a move ----

  /** What a move by the book leaves: the mover, or the piece it promotes to, on its target, its
      home empty, a pawn taken in passing gone from beside it, every other square as it was. */
  predicate MovedBoard(cells: Cells, c: Color, m: Move, next: Cells)
    requires m.from in cells
  {
    && m.to in next && m.from !in next
    && next[m.to] == (if m.kind == Promotion || m.kind == CapturePromotion then Piece(m.promotion, c) else cells[m.from])
    && forall s: Square :: s != m.from && s != m.to ==>
         if m.kind == EnPassant && OnSquare(s, File(m.to), Rank(m.from)) then s !in next
         else (s in next <==> s in cells) && (s in cells ==> next[s] == cells[s])
  }

  lemma BesideMover(cells: Cells, c: Color, m: Move)
    requires Attacks(Piece(PAWN, c), m.from, m.to, cells.Keys) && 0 <= Behind(m.to, c) < 64
    ensures OnSquare(Behind(m.to, c), File(m.to), Rank(m.from))
  {
  }

  lemma MovePlaces(cells: Cells, c: Color, rights: bv4, ep: Option<Square>, m: Move)
    requires RightsHome(cells, rights) && EpHome(cells, c, ep) && PseudoLegal(cells, c, rights, ep, m) && m.kind != Castling
    ensures WellTyped(cells, c, m) && MovedBoard(cells, c, m, NextCells(cells, c, m))
  {
    PseudoLegalIsWellTyped(cells, c, rights, ep, m);
    EpReaches(cells, c, rights, ep, m);
    hide PseudoLegal, RightsHome, EpHome, MovedBoard, WellTyped, Attacks;
    if m.kind == EnPassant {
      EpPlaces(cells, c, m);
    } else {
      PlainPlaces(cells, c, m);
    }
  }

  lemma EpReaches(cells: Cells, c: Color, rights: bv4, ep: Option<Square>, m: Move)
    requires PseudoLegal(cells, c, rights, ep, m)
    ensures m.kind != Untyped && (m.kind == EnPassant ==> Attacks(Piece(PAWN, c), m.from, m.to, cells.Keys))
  {
    hide Attacks, CanCastle;
  }

  lemma EpPlaces(cells: Cells, c: Color, m: Move)
    requires WellTyped(cells, c, m) && m.kind == EnPassant && Attacks(Piece(PAWN, c), m.from, m.to, cells.Keys)
    ensures MovedBoard(cells, c, m, NextCells(cells, c, m))
  {
    BesideMover(cells, c, m);
    forall s: Square ensures OnSquare(s, File(m.to), Rank(m.from)) <==> s == Behind(m.to, c) {
      if OnSquare(s, File(m.to), Rank(m.from)) {
        OneSquare(s, Behind(m.to, c), File(m.to), Rank(m.from));
      }
    }
    hide Attacks, File, Rank, OnSquare;
  }

  lemma PlainPlaces(cells: Cells, c: Color, m: Move)
    requires WellTyped(cells, c, m) && m.kind != EnPassant && m.kind != Castling && m.kind != Untyped
    ensures MovedBoard(cells, c, m, NextCells(cells, c, m))
  {
    hide OnSquare;
  }

  // ---- the record ----

  /** The half-move counter starts again exactly when a pawn or the number of pieces changed. */
  lemma CounterRestarts(z: Randoms, p: Pos, m: Move)
    requires p.history != [] && WellTyped(p.cells, p.stm, m)
    ensures
      var q := Make(z, p, m);
      q.Top().halfmoves ==
        if OfKind(q.cells, PAWN) != OfKind(p.cells, PAWN) || |q.cells| != |p.cells| then 0 else p.Top().halfmoves + 1
  {
    MovePieceCount(p.cells, p.stm, m);
    PawnsChange(p.cells, p.stm, m);
    hide NextHash, NextCells, WellTyped;
    CounterRule(z, p, m);
  }

  lemma CounterRule(z: Randoms, p: Pos, m: Move)
    requires p.history != [] && WellTyped(p.cells, p.stm, m)
    ensures Make(z, p, m).Top().halfmoves == if p.cells[m.from].kind == PAWN || m.to in p.cells then 0 else p.Top().halfmoves + 1
    ensures Make(z, p, m).cells == NextCells(p.cells, p.stm, m)
    ensures m.to in p.cells ==> MoveTypeOf(p.cells, m) in {Capture, CapturePromotion}
    ensures MoveTypeOf(p.cells, m) in {Capture, CapturePromotion} ==> m.to in p.cells
    ensures MoveTypeOf(p.cells, m) == EnPassant ==> p.cells[m.from].kind == PAWN
  {
    hide NextHash, NextCells;
  }

  lemma PawnsChange(cells: Cells, stm: Color, m: Move)
    requires WellTyped(cells, stm, m)
    ensures cells[m.from].kind == PAWN ==> OfKind(NextCells(cells, stm, m), PAWN) != OfKind(cells, PAWN)
    ensures cells[m.from].kind != PAWN && m.to !in cells ==> OfKind(NextCells(cells, stm, m), PAWN) == OfKind(cells, PAWN)
  {
    if cells[m.from].kind == PAWN {
      assert m.from in OfKind(cells, PAWN) && m.from !in OfKind(NextCells(cells, stm, m), PAWN);
    }
  }

  /** A null move changes nothing but the side, the counters, the key and the en-passant square. */
  lemma NullKeepsBoard(z: Randoms, p: Pos)
    requires p.history != []
    ensures
      var q := MakeNull(z, p);
      && q.cells == p.cells && q.stm == Other(p.stm) && q.Top().rights == p.Top().rights && q.Top().ep == None
      && q.Top().previous == None && q.Top().captured == None && q.Top().halfmoves == p.Top().halfmoves + 1
  {
  }
}
