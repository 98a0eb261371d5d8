/** What a position key separates: the slots of the random table it draws on. */
module Keys {
  import opened Types
  import opened Folds
  import opened Lookups
  import opened Rules
  import opened Legality
  import opened Repetition

  // ---- slots ----

  /** What a key has a random number for. */
  datatype Feature = Standing(s: Square, p: Piece) | Right(bit: int) | Crossed(file: int) | WhiteMoves

  /** A right by its number, in the order K, Q, k, q. */
  predicate Allowed(rights: bv4, bit: int) {
    (bit == 0 && rights & 1 != 0) || (bit == 1 && rights & 2 != 0) || (bit == 2 && rights & 4 != 0) || (bit == 3 && rights & 8 != 0)
  }

  predicate Real(f: Feature) {
    match f
    case Standing(_, _) => true
    case Right(bit) => 0 <= bit < 4
    case Crossed(file) => 0 <= file < 8
    case WhiteMoves => true
  }

  /** The feature is one of the position's. */
  predicate Shows(p: Pos, f: Feature)
    requires p.history != []
  {
    match f
    case Standing(s, x) => s in p.cells && p.cells[s] == x
    case Right(bit) => Allowed(p.Top().rights, bit)
    case Crossed(file) => UsableEp(p) == Some(file)
    case WhiteMoves => p.stm == WHITE
  }

  /** Section 4 of the Polyglot book format: twelve blocks of 64 for the pieces, black before white,
      then four rights, eight files, the turn. */
  function Slot(f: Feature): int {
    match f
    case Standing(s, x) => 128 * x.kind + (if x.color == WHITE then 64 else 0) + 8 * Rank(s) + File(s)
    case Right(bit) => 768 + bit
    case Crossed(file) => 772 + file
    case WhiteMoves => 780
  }

  /** Different features have different slots, and there are 781 of them. */
  lemma SlotsApart(f: Feature, g: Feature)
    requires Real(f) && Real(g)
    ensures 0 <= Slot(f) < 781 && (Slot(f) == Slot(g) ==> f == g)
  {
    if f.Standing? {
      PieceSlot(f.s, f.p);
    }
    if g.Standing? {
      PieceSlot(g.s, g.p);
    }
    hide File, Rank;
    if f.Standing? && g.Standing? && Slot(f) == Slot(g) {
      SamePieceSlot(f.s, f.p, g.s, g.p);
    }
  }

  lemma PieceSlot(s: Square, x: Piece)
    ensures Slot(Standing(s, x)) == 64 * (2 * x.kind + if x.color == WHITE then 1 else 0) + s
    ensures 0 <= Slot(Standing(s, x)) < 768
  {
  }

  lemma SamePieceSlot(s: Square, x: Piece, t: Square, y: Piece)
    requires Slot(Standing(s, x)) == Slot(Standing(t, y))
    ensures s == t && x == y
  {
    PieceSlot(s, x);
    PieceSlot(t, y);
    hide Slot;
    var a, b := 2 * x.kind + if x.color == WHITE then 1 else 0, 2 * y.kind + if y.color == WHITE then 1 else 0;
    assert 64 * a + s == 64 * b + t;
    assert a == b;
  }

  // ---- a table with one number ----

  /** The table that has a bit at one slot and nothing elsewhere. */
  function Single(slot: int): Randoms {
    (i: int) => if i == slot then {0} else {}
  }

  lemma SinglePiece(f: Feature, s: Square, x: Piece)
    requires Real(f)
    ensures PieceKey(Single(Slot(f)), s, x) == if f == Standing(s, x) then {0} else {}
  {
    PieceSlot(s, x);
    SlotsApart(f, Standing(s, x));
    hide Slot;
  }

  lemma {:induction false} SinglePieces(f: Feature, cells: Cells, squares: Bitboard)
    requires Real(f) && squares <= cells.Keys
    ensures XorSum(KeyOf(Single(Slot(f))), cells, squares) ==
      if f.Standing? && f.s in squares && cells[f.s] == f.p then {0} else {}
  {
    hide PieceKey, Slot, Single;
    if squares != {} {
      var s := Lowest(squares);
      SinglePiece(f, s, cells[s]);
      SinglePieces(f, cells, squares - {s});
    }
  }

  lemma SingleRights(f: Feature, rights: bv4)
    requires Real(f)
    ensures CastlingKey(Single(Slot(f)), rights) == if f.Right? && Allowed(rights, f.bit) then {0} else {}
  {
    SlotsApart(f, Right(0));
    SlotsApart(f, Right(1));
    SlotsApart(f, Right(2));
    SlotsApart(f, Right(3));
  }

  /** With that table the key says exactly whether the position shows the feature. */
  lemma SingleKey(f: Feature, p: Pos)
    requires Real(f) && p.history != []
    ensures FullHash(Single(Slot(f)), p.cells, p.stm, p.Top().rights, p.Top().ep) == if Shows(p, f) then {0} else {}
  {
    var z := Single(Slot(f));
    SinglePieces(f, p.cells, p.cells.Keys);
    SingleRights(f, p.Top().rights);
    SingleEp(f, p);
    SingleSide(f, p.stm);
    hide CastlingKey, EpPart, SidePart, Slot, Single, XorSum, Allowed, UsableEp;
  }

  lemma SingleEp(f: Feature, p: Pos)
    requires Real(f) && p.history != []
    ensures EpPart(Single(Slot(f)), p.cells, p.stm, p.Top().ep) == if f.Crossed? && UsableEp(p) == Some(f.file) then {0} else {}
  {
    if p.Top().ep.Some? {
      SlotsApart(f, Crossed(File(p.Top().ep.value)));
    }
    hide EpCandidates, File;
  }

  lemma SingleSide(f: Feature, stm: Color)
    requires Real(f)
    ensures SidePart(Single(Slot(f)), stm) == if f.WhiteMoves? && stm == WHITE then {0} else {}
  {
    SlotsApart(f, WhiteMoves);
  }

  // ---- separation ----

  /** Two positions that are not the same differ in some feature. */
  lemma DifferentFeature(p: Pos, q: Pos) returns (f: Feature)
    requires p.history != [] && q.history != [] && !SamePosition(p, q)
    ensures Real(f) && Shows(p, f) != Shows(q, f)
  {
    hide UsableEp;
    if p.stm != q.stm {
      return WhiteMoves;
    } else if p.cells != q.cells {
      var s := DifferentSquare(p.cells, q.cells);
      return if s in p.cells then Standing(s, p.cells[s]) else Standing(s, q.cells[s]);
    } else if p.Top().rights != q.Top().rights {
      var bit := DifferentRight(p.Top().rights, q.Top().rights);
      return Right(bit);
    }
    UsableFile(p);
    UsableFile(q);
    return if UsableEp(p).Some? then Crossed(UsableEp(p).value) else Crossed(UsableEp(q).value);
  }

  lemma DifferentSquare(a: Cells, b: Cells) returns (s: Square)
    requires a != b
    ensures (s in a && (s in b ==> b[s] != a[s])) || (s !in a && s in b)
  {
    assert exists s: Square :: (s in a && (s in b ==> b[s] != a[s])) || (s !in a && s in b);
    s :| (s in a && (s in b ==> b[s] != a[s])) || (s !in a && s in b);
  }

  lemma DifferentRight(a: bv4, b: bv4) returns (bit: int)
    requires a != b
    ensures 0 <= bit < 4 && Allowed(a, bit) != Allowed(b, bit)
  {
    if a & 1 != b & 1 {
      return 0;
    } else if a & 2 != b & 2 {
      return 1;
    } else if a & 4 != b & 4 {
      return 2;
    }
    assert a & 8 != b & 8;
    return 3;
  }

  /** The file counts exactly when some en-passant capture is pseudo-legal. */
  lemma UsableMeaning(p: Pos)
    requires p.history != []
    ensures UsableEp(p).Some? <==>
      exists m: Move :: m.kind == EnPassant && PseudoLegal(p.cells, p.stm, p.Top().rights, p.Top().ep, m)
    ensures UsableEp(p).Some? ==> p.Top().ep.Some? && UsableEp(p).value == File(p.Top().ep.value)
  {
    var ep := p.Top().ep;
    if ep.Some? {
      forall s: Square ensures s in EpCandidates(p.cells, p.stm, ep.value) <==>
        PseudoLegal(p.cells, p.stm, p.Top().rights, ep, Move(s, ep.value, PAWN, EnPassant))
      {
        PawnAttacksMeaning(ep.value, Other(p.stm), s);
        hide PawnAttacks;
      }
      hide EpCandidates, PseudoLegal, File;
      if m: Move :| m.kind == EnPassant && PseudoLegal(p.cells, p.stm, p.Top().rights, ep, m) {
        EpShapeOf(p, m);
      }
      if s :| s in EpCandidates(p.cells, p.stm, ep.value) {
        assert PseudoLegal(p.cells, p.stm, p.Top().rights, ep, Move(s, ep.value, PAWN, EnPassant));
      }
    }
  }

  lemma EpShapeOf(p: Pos, m: Move)
    requires p.history != [] && m.kind == EnPassant && PseudoLegal(p.cells, p.stm, p.Top().rights, p.Top().ep, m)
    ensures p.Top().ep == Some(m.to) && m == Move(m.from, m.to, PAWN, EnPassant)
  {
    hide Attacks;
  }

  lemma UsableFile(p: Pos)
    requires p.history != []
    ensures UsableEp(p).Some? ==> 0 <= UsableEp(p).value < 8
  {
    hide EpCandidates;
  }

  /** The key draws on everything that makes a position: two positions that are not the same have
      different keys under some table of random numbers, and the same under all otherwise. */
  lemma KeysSeparate(p: Pos, q: Pos)
    requires p.history != [] && q.history != []
    ensures SamePosition(p, q) <==> forall z: Randoms ::
      FullHash(z, p.cells, p.stm, p.Top().rights, p.Top().ep) == FullHash(z, q.cells, q.stm, q.Top().rights, q.Top().ep)
  {
    if SamePosition(p, q) {
      forall z: Randoms
        ensures FullHash(z, p.cells, p.stm, p.Top().rights, p.Top().ep) == FullHash(z, q.cells, q.stm, q.Top().rights, q.Top().ep)
      {
        SameEpPart(z, p, q);
        hide EpPart, UsableEp, XorTotal, CastlingKey;
      }
    } else {
      var f := DifferentFeature(p, q);
      hide SamePosition, FullHash, Slot, Single, Shows;
      SingleKey(f, p);
      SingleKey(f, q);
    }
  }

  lemma SameEpPart(z: Randoms, p: Pos, q: Pos)
    requires SamePosition(p, q)
    ensures EpPart(z, p.cells, p.stm, p.Top().ep) == EpPart(z, q.cells, q.stm, q.Top().ep)
  {
    hide EpCandidates;
  }
}
