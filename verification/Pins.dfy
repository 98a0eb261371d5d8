/** The pin-and-ray legality test against playing the move, and the check-evasion generator
    against the moves that really answer a check. */
module Pins {
  import opened Types
  import opened Lookups
  import opened Rules
  import opened Legality

  /** Enemy sliders that would see the king on an empty board. */
  function Pinners(cells: Cells, c: Color, k: Square): Bitboard {
    set s | s in cells && cells[s].color == Other(c) && Slides(cells[s].kind, s, k)
  }

  /** Own pieces that are the only piece between their king and some enemy slider. */
  function PinnedPieces(cells: Cells, c: Color, k: Square): Bitboard {
    set f | f in cells && cells[f].color == c && exists s :: s in Pinners(cells, c, k) && PinsAlone(cells, s, k, f)
  }

  function RookLike(cells: Cells, c: Color): Bitboard {
    Side(cells, c) * (OfKind(cells, QUEEN) + OfKind(cells, ROOK))
  }

  function BishopLike(cells: Cells, c: Color): Bitboard {
    Side(cells, c) * (OfKind(cells, QUEEN) + OfKind(cells, BISHOP))
  }

  /** Occupancy after an en-passant capture, as the test computes it. */
  function EpOccupancy(cells: Cells, c: Color, from: Square, ep: Square): Bitboard
    requires 0 <= Behind(ep, c) < 64
  {
    Xor(Xor(cells.Keys, {from}), {Behind(ep, c)}) + {ep}
  }

  /** `is_legal_generated_move`. */
  predicate PassesTest(cells: Cells, c: Color, k: Square, m: Move, pinned: Bitboard)
    requires m.kind == EnPassant ==> 0 <= Behind(m.to, c) < 64
  {
    if m.kind == EnPassant then
      var occ := EpOccupancy(cells, c, m.from, m.to);
      RookAttacks(k, occ) * RookLike(cells, Other(c)) == {} && BishopAttacks(k, occ) * BishopLike(cells, Other(c)) == {}
    else if m.from == k then
      m.kind == Castling || Attackers(cells, m.to, cells.Keys) * Side(cells, Other(c)) == {}
    else
      m.from !in pinned || m.to in FullRay(k, m.from)
  }

  lemma PseudoLegalIsWellTyped(cells: Cells, c: Color, rights: bv4, ep: Option<Square>, m: Move)
    requires RightsHome(cells, rights) && EpHome(cells, c, ep) && PseudoLegal(cells, c, rights, ep, m)
    ensures WellTyped(cells, c, m)
  {
    if m.kind == Castling {
      CastlingIsWellTyped(cells, c, rights, m);
    }
  }

  // ---- geometry of a pin ----

  lemma LineCoordinates(fk: int, rk: int, ff: int, rf: int, fs: int, rs: int, ft: int, rt: int)
    requires Inside(fk, rk, ff, rf, fs, rs)
    requires !(ft == ff && rt == rf) && !(ft == fk && rt == rk) && !(ft == fs && rt == rs)
    requires !Inside(ff, rf, fk, rk, ft, rt) && !Inside(ff, rf, fs, rs, ft, rt)
    ensures Inside(fk, rk, ft, rt, fs, rs) <==>
      (fk == ff == ft || rk == rf == rt || rk - fk == rf - ff == rt - ft || rk + fk == rf + ff == rt + ft)
  {
  }

  /** A pinned piece that moves along an unblocked path stays on the king's line exactly when
      it stays between king and pinner or takes the pinner. */
  lemma PinLine(k: Square, f: Square, s: Square, t: Square, occ: Bitboard)
    requires InBetween(k, f, s) && k in occ && s in occ && Clear(f, t, occ) && t != f && t != k
    ensures t in FullRay(k, f) <==> t == s || InBetween(k, t, s)
  {
    FullRayMeaning(k, f, t);
    if t != s {
      LineCoordinates(File(k), Rank(k), File(f), Rank(f), File(s), Rank(s), File(t), Rank(t));
    }
  }

  // ---- what a move does to one attacker of the king ----

  /** `t` is where the moved piece lands; `gone` is what else leaves the board. */
  predicate Shifted(occ: Bitboard, occ': Bitboard, from: Square, to: Square) {
    occ' == (occ - {from}) + {to}
  }

  lemma SightAfter(occ: Bitboard, occ': Bitboard, from: Square, to: Square, s: Square, k: Square)
    requires Shifted(occ, occ', from, to)
    ensures Clear(s, k, occ') <==> (Between(s, k) * occ <= {from}) && !InBetween(s, to, k)
  {
    if Clear(s, k, occ') {
      forall x | x in Between(s, k) * occ ensures x == from {
        assert x !in occ';
      }
      assert to in occ';
    }
    if Between(s, k) * occ <= {from} && !InBetween(s, to, k) {
      forall x: Square | InBetween(s, x, k) ensures x !in occ' {
        assert x in occ ==> x in Between(s, k) * occ;
      }
    }
  }

  lemma PathClear(cells: Cells, c: Color, rights: bv4, ep: Option<Square>, m: Move)
    requires PseudoLegal(cells, c, rights, ep, m) && m.kind != Castling && EpHome(cells, c, ep)
    ensures Clear(m.from, m.to, cells.Keys) && m.to != m.from && !Owns(cells, c, m.to)
  {
    var df, dr := File(m.to) - File(m.from), Rank(m.to) - Rank(m.from);
    if cells[m.from].kind == PAWN || cells[m.from].kind == KING || cells[m.from].kind == KNIGHT {
      if m.kind == DoublePush {
        forall x: Square | InBetween(m.from, x, m.to) ensures x == PawnShift(m.from, c) {
        }
      } else {
        assert (Abs(df) <= 1 && Abs(dr) <= 1) || (Abs(df) == 1 && Abs(dr) == 2) || (Abs(df) == 2 && Abs(dr) == 1);
        forall x: Square ensures !InBetween(m.from, x, m.to) {
          NothingInside(File(m.from), Rank(m.from), File(x), Rank(x), File(m.to), Rank(m.to));
        }
      }
    }
  }

  lemma NothingInside(fa: int, ra: int, fm: int, rm: int, fb: int, rb: int)
    requires var df, dr := fb - fa, rb - ra;
      (Abs(df) <= 1 && Abs(dr) <= 1) || (Abs(df) == 1 && Abs(dr) == 2) || (Abs(df) == 2 && Abs(dr) == 1)
    ensures !Inside(fa, ra, fm, rm, fb, rb)
  {
  }

  /** `after` is `cells` with one piece of colour `c` moved, and nothing else but a capture on `to`. */
  predicate Moved(cells: Cells, after: Cells, c: Color, from: Square, to: Square) {
    && Shifted(cells.Keys, after.Keys, from, to)
    && after[to].color == c
    && forall s :: s in cells && s != from && s != to ==> s in after && after[s] == cells[s]
  }

  lemma PlainMoved(cells: Cells, c: Color, m: Move)
    requires WellTyped(cells, c, m) && !m.kind.Untyped? && !m.kind.EnPassant? && !m.kind.Castling?
    ensures Moved(cells, NextCells(cells, c, m), c, m.from, m.to)
  {
  }

  predicate Slider(p: Piece) {
    p.kind == BISHOP || p.kind == ROOK || p.kind == QUEEN
  }

  lemma AttackParts(p: Piece, s: Square, t: Square, occ: Bitboard, occ': Bitboard)
    ensures Slider(p) ==> (Attacks(p, s, t, occ) <==> Slides(p.kind, s, t) && Clear(s, t, occ))
    ensures !Slider(p) ==> !Slides(p.kind, s, t) && (Attacks(p, s, t, occ) <==> Attacks(p, s, t, occ'))
  {
  }

  predicate PinsAlone(cells: Cells, s: Square, k: Square, f: Square) {
    Between(s, k) * cells.Keys == {f}
  }

  lemma SeenThroughNothing(occ: Bitboard, s: Square, k: Square)
    ensures Clear(s, k, occ) <==> Between(s, k) * occ == {}
  {
    if Clear(s, k, occ) {
      assert forall x :: x in Between(s, k) ==> x !in occ;
    } else {
      var x: Square :| InBetween(s, x, k) && x in occ;
      assert x in Between(s, k) * occ;
    }
  }

  /** An own piece leaves the line of the slider it shields the king from. */
  predicate LeavesPin(cells: Cells, c: Color, from: Square, to: Square, k: Square, s: Square) {
    s in Pinners(cells, c, k) && PinsAlone(cells, s, k, from) && s != to && !InBetween(s, to, k)
  }

  /** A move to `to` takes the checker on `s` or steps into its line. */
  predicate Answers(cells: Cells, to: Square, k: Square, s: Square)
    requires s in cells
  {
    s == to || (Slider(cells[s]) && InBetween(s, to, k))
  }

  predicate AllAnswered(cells: Cells, c: Color, to: Square, k: Square) {
    forall s :: Owns(cells, Other(c), s) && Attacks(cells[s], s, k, cells.Keys) ==> Answers(cells, to, k, s)
  }

  /** After a move of another piece an enemy attacks the king exactly when it is an unanswered
      checker or the mover was its only obstacle and left the line. */
  lemma AttackAfter(cells: Cells, after: Cells, c: Color, from: Square, to: Square, k: Square, s: Square)
    requires Moved(cells, after, c, from, to) && Owns(cells, c, from)
    requires Owns(cells, Other(c), s) && s != to
    ensures s in after && after[s] == cells[s]
    ensures Attacks(after[s], s, k, after.Keys) <==>
      (Attacks(cells[s], s, k, cells.Keys) && !Answers(cells, to, k, s)) || LeavesPin(cells, c, from, to, k, s)
  {
    hide Attacks, Slides, InBetween;
    AttackParts(cells[s], s, k, cells.Keys, after.Keys);
    AttackParts(cells[s], s, k, after.Keys, cells.Keys);
    SightAfter(cells.Keys, after.Keys, from, to, s, k);
    SeenThroughNothing(cells.Keys, s, k);
  }

  lemma UnattackedMeaning(cells: Cells, k: Square, c: Color)
    ensures Attacked(cells, k, c) <==> exists s :: Owns(cells, c, s) && Attacks(cells[s], s, k, cells.Keys)
  {
    if Attacked(cells, k, c) {
      var s :| s in Attackers(cells, k, cells.Keys) * Side(cells, c);
      assert Owns(cells, c, s);
    }
    if s :| Owns(cells, c, s) && Attacks(cells[s], s, k, cells.Keys) {
      assert s in Attackers(cells, k, cells.Keys) * Side(cells, c);
    }
  }

  lemma PinnerLine(cells: Cells, c: Color, from: Square, to: Square, k: Square, s: Square)
    requires Clear(from, to, cells.Keys) && k in cells && k != to && from != to
    requires s in Pinners(cells, c, k) && PinsAlone(cells, s, k, from)
    ensures to in FullRay(k, from) <==> to == s || InBetween(s, to, k)
  {
    hide Clear, Slides, FullRay;
    assert from in Between(s, k);
    PinLine(k, from, s, to, cells.Keys);
  }

  lemma PinnedOffLine(cells: Cells, c: Color, from: Square, to: Square, k: Square)
    requires Owns(cells, c, from) && Clear(from, to, cells.Keys) && k in cells && k != to && from != to
    ensures from in PinnedPieces(cells, c, k) && to !in FullRay(k, from) <==> exists s :: LeavesPin(cells, c, from, to, k, s)
  {
    hide FullRay, Clear, Pinners, InBetween, PinsAlone;
    forall s | s in Pinners(cells, c, k) && PinsAlone(cells, s, k, from)
      ensures to in FullRay(k, from) <==> to == s || InBetween(s, to, k)
    {
      PinnerLine(cells, c, from, to, k, s);
    }
    if from in PinnedPieces(cells, c, k) && to !in FullRay(k, from) {
      var s :| s in Pinners(cells, c, k) && PinsAlone(cells, s, k, from);
      assert LeavesPin(cells, c, from, to, k, s);
    }
    if s :| LeavesPin(cells, c, from, to, k, s) {
      assert s in Pinners(cells, c, k) && PinsAlone(cells, s, k, from);
    }
  }

  lemma AttackedAfter(cells: Cells, after: Cells, c: Color, from: Square, to: Square, k: Square)
    requires Moved(cells, after, c, from, to) && Owns(cells, c, from)
    ensures Attacked(after, k, Other(c)) <==>
      !AllAnswered(cells, c, to, k) || exists s :: LeavesPin(cells, c, from, to, k, s)
  {
    hide Attacks, Slides, InBetween;
    UnattackedMeaning(after, k, Other(c));
    if s :| LeavesPin(cells, c, from, to, k, s) {
      AttackAfter(cells, after, c, from, to, k, s);
      assert Owns(after, Other(c), s) && Attacks(after[s], s, k, after.Keys);
    }
    if s :| Owns(cells, Other(c), s) && Attacks(cells[s], s, k, cells.Keys) && !Answers(cells, to, k, s) {
      AttackAfter(cells, after, c, from, to, k, s);
      assert Owns(after, Other(c), s) && Attacks(after[s], s, k, after.Keys);
    }
    if s :| Owns(after, Other(c), s) && Attacks(after[s], s, k, after.Keys) {
      AttackAfter(cells, after, c, from, to, k, s);
    }
  }

  // ---- king moves ----

  /** A king step is safe exactly when no enemy attacks the target with the king lifted off. */
  lemma KingAttackedAfter(cells: Cells, after: Cells, c: Color, k: Square, to: Square)
    requires Moved(cells, after, c, k, to) && Owns(cells, c, k) && k != to
    ensures Attacked(after, to, Other(c)) <==> Attackers(cells, to, cells.Keys - {k}) * Side(cells, Other(c)) != {}
  {
    hide Attacks, Slides, InBetween;
    UnattackedMeaning(after, to, Other(c));
    forall s | Owns(cells, Other(c), s)
      ensures Attacks(cells[s], s, to, after.Keys) <==> Attacks(cells[s], s, to, cells.Keys - {k})
    {
      AttackParts(cells[s], s, to, after.Keys, cells.Keys - {k});
      AttackParts(cells[s], s, to, cells.Keys - {k}, after.Keys);
      EndNotInside(s, to);
    }
    if s :| s in Attackers(cells, to, cells.Keys - {k}) * Side(cells, Other(c)) {
      assert s != to by {
        NoSelfAttack(cells[s], s, cells.Keys - {k});
      }
      assert Owns(after, Other(c), s) && Attacks(after[s], s, to, after.Keys);
    }
    if s :| Owns(after, Other(c), s) && Attacks(after[s], s, to, after.Keys) {
      assert s in Attackers(cells, to, cells.Keys - {k}) * Side(cells, Other(c));
    }
  }

  lemma EndNotInside(s: Square, t: Square)
    ensures !InBetween(s, t, t) && !InBetween(s, s, t)
  {
  }

  lemma NoSelfAttack(p: Piece, s: Square, occ: Bitboard)
    ensures !Attacks(p, s, s, occ)
  {
  }

  /** A slider that sees past the king onto a neighbouring square already checks the king. */
  lemma SeesThroughKing(p: Piece, s: Square, k: Square, to: Square, occ: Bitboard)
    requires Slider(p) && s != k && Attacks(Piece(KING, 0), k, to, occ)
    requires Attacks(p, s, to, occ - {k}) && !Attacks(p, s, to, occ)
    ensures Attacks(p, s, k, occ)
  {
    hide Attacks, Slides;
    AttackParts(p, s, to, occ - {k}, occ);
    AttackParts(p, s, to, occ, occ);
    AttackParts(p, s, k, occ, occ);
    var x: Square :| InBetween(s, x, to) && x in occ;
    assert x == k;
    SameLine(p.kind, s, k, to);
    forall y: Square | InBetween(s, y, k) ensures y !in occ {
      InsideTrans(File(s), Rank(s), File(y), Rank(y), File(k), Rank(k), File(to), Rank(to));
      assert InBetween(s, y, to) && y != k;
    }
  }

  lemma SameLine(kind: PieceType, s: Square, k: Square, t: Square)
    requires InBetween(s, k, t) && Slides(kind, s, t)
    ensures Slides(kind, s, k)
  {
  }

  lemma InsideTrans(fs: int, rs: int, fy: int, ry: int, fk: int, rk: int, ft: int, rt: int)
    requires Inside(fs, rs, fk, rk, ft, rt) && Inside(fs, rs, fy, ry, fk, rk)
    ensures Inside(fs, rs, fy, ry, ft, rt) && !(fy == fk && ry == rk)
  {
  }

  lemma KingTestExact(cells: Cells, c: Color, k: Square, to: Square)
    requires Holds(cells, k, KING, c) && Attacks(cells[k], k, to, cells.Keys) && !Attacked(cells, k, Other(c))
    ensures Attackers(cells, to, cells.Keys) * Side(cells, Other(c)) == {} <==>
      Attackers(cells, to, cells.Keys - {k}) * Side(cells, Other(c)) == {}
  {
    UnattackedMeaning(cells, k, Other(c));
    forall s | Owns(cells, Other(c), s)
      ensures Attacks(cells[s], s, to, cells.Keys) <==> Attacks(cells[s], s, to, cells.Keys - {k})
    {
      AttackParts(cells[s], s, to, cells.Keys, cells.Keys - {k});
      AttackParts(cells[s], s, to, cells.Keys - {k}, cells.Keys);
      if Slider(cells[s]) && Attacks(cells[s], s, to, cells.Keys - {k}) && !Attacks(cells[s], s, to, cells.Keys) {
        SeesThroughKing(cells[s], s, k, to, cells.Keys);
      }
    }
    assert forall s :: s in Attackers(cells, to, cells.Keys) * Side(cells, Other(c)) <==>
                       s in Attackers(cells, to, cells.Keys - {k}) * Side(cells, Other(c));
  }

  // ---- en passant ----

  predicate StepCheck(cells: Cells, c: Color, k: Square, s: Square) {
    Owns(cells, Other(c), s) && !Slider(cells[s]) && Attacks(cells[s], s, k, cells.Keys)
  }

  lemma EpShape(cells: Cells, c: Color, m: Move)
    requires WellTyped(cells, c, m) && m.kind == EnPassant
    ensures
      var after, victim := NextCells(cells, c, m), Behind(m.to, c);
      && m.to !in cells && after.Keys == EpOccupancy(cells, c, m.from, m.to)
      && after[m.to].color == c
      && forall s :: s != m.to ==> (s in after <==> s in cells && s != m.from && s != victim) && (s in after ==> after[s] == cells[s])
  {
  }

  /** What the en-passant test looks for from the king's square. */
  predicate SeenSlider(cells: Cells, c: Color, k: Square, occ: Bitboard, s: Square) {
    s in RookAttacks(k, occ) * RookLike(cells, c) || s in BishopAttacks(k, occ) * BishopLike(cells, c)
  }

  lemma SeenSliderMeaning(cells: Cells, c: Color, k: Square, occ: Bitboard, s: Square)
    ensures SeenSlider(cells, c, k, occ, s) <==> Owns(cells, c, s) && Slider(cells[s]) && Attacks(cells[s], s, k, occ)
  {
    RookAttacksMeaning(k, occ, s);
    BishopAttacksMeaning(k, occ, s);
    ClearSymmetric(k, s, occ);
    hide RookAttacks, BishopAttacks, Clear, Attacks, File, Rank;
    if s in cells {
      AttackParts(cells[s], s, k, occ, occ);
    }
  }

  lemma EpTestMeaning(cells: Cells, c: Color, k: Square, m: Move)
    requires WellTyped(cells, c, m) && m.kind == EnPassant
    ensures
      var after := NextCells(cells, c, m);
      PassesTest(cells, c, k, m, {}) <==> forall s :: Owns(after, Other(c), s) && Slider(after[s]) ==> !Attacks(after[s], s, k, after.Keys)
  {
    var after, occ := NextCells(cells, c, m), EpOccupancy(cells, c, m.from, m.to);
    EpShape(cells, c, m);
    hide NextCells, Attacks, RookAttacks, BishopAttacks, EpOccupancy, RookLike, BishopLike, MoveTypeOf;
    forall s ensures SeenSlider(cells, Other(c), k, occ, s) <==> Owns(after, Other(c), s) && Slider(after[s]) && Attacks(after[s], s, k, after.Keys)
    {
      SeenSliderMeaning(cells, Other(c), k, occ, s);
      if s == m.from || s == m.to || s == Behind(m.to, c) {
      }
    }
    assert PassesTest(cells, c, k, m, {}) <==> forall s :: !SeenSlider(cells, Other(c), k, occ, s) by {
      if s :| SeenSlider(cells, Other(c), k, occ, s) {
      }
      if s :| s in RookAttacks(k, occ) * RookLike(cells, Other(c)) {
        assert SeenSlider(cells, Other(c), k, occ, s);
      }
      if s :| s in BishopAttacks(k, occ) * BishopLike(cells, Other(c)) {
        assert SeenSlider(cells, Other(c), k, occ, s);
      }
    }
  }

  /** After an en-passant capture the king is attacked exactly when the test fails or another
      piece than the captured pawn gives a pawn, knight or king check. */
  lemma EpAttackedAfter(cells: Cells, c: Color, k: Square, m: Move)
    requires WellTyped(cells, c, m) && m.kind == EnPassant
    ensures Attacked(NextCells(cells, c, m), k, Other(c)) <==>
      !PassesTest(cells, c, k, m, {}) || exists s :: s != Behind(m.to, c) && StepCheck(cells, c, k, s)
  {
    var after := NextCells(cells, c, m);
    EpTestMeaning(cells, c, k, m);
    EpShape(cells, c, m);
    UnattackedMeaning(after, k, Other(c));
    hide NextCells, Attacks, PassesTest;
    forall s | s in cells ensures !Slider(cells[s]) ==> (Attacks(cells[s], s, k, cells.Keys) <==> Attacks(cells[s], s, k, after.Keys)) {
      AttackParts(cells[s], s, k, cells.Keys, after.Keys);
    }
    if s :| s != Behind(m.to, c) && StepCheck(cells, c, k, s) {
      assert Owns(after, Other(c), s) && Attacks(after[s], s, k, after.Keys);
    }
    if s :| Owns(after, Other(c), s) && Attacks(after[s], s, k, after.Keys) {
      assert Slider(after[s]) || StepCheck(cells, c, k, s);
    }
  }

  // ---- castling ----

  lemma CastledLine(from: Square, to: Square, x: Square, s: Square)
    requires (from == E1 && (to == G1 || to == C1)) || (from == E8 && (to == G8 || to == C8))
    requires InBetween(s, x, to) && (x == from || x == RookFrom(to))
    ensures InBetween(s, RookTo(to), to)
  {
  }

  /** A generated castling move never leaves the king attacked. */
  lemma CastlingIsSafe(cells: Cells, c: Color, rights: bv4, m: Move)
    requires RightsHome(cells, rights) && m.kind == Castling && CanCastle(cells, c, rights, m.from, m.to)
    ensures WellTyped(cells, c, m) && !Attacked(NextCells(cells, c, m), m.to, Other(c))
  {
    hide Attacks, InBetween, NextCells, Slides, Attacked, RightsHome;
    CastlingIsWellTyped(cells, c, rights, m);
    var after := NextCells(cells, c, m);
    assert m.to in CastlingGap(m.to) && RookTo(m.to) in CastlingGap(m.to);
    UnattackedMeaning(cells, m.to, Other(c));
    UnattackedMeaning(after, m.to, Other(c));
    if s :| Owns(after, Other(c), s) && Attacks(after[s], s, m.to, after.Keys) {
      CastlingShape(cells, c, rights, m, s);
      AttackParts(cells[s], s, m.to, cells.Keys, after.Keys);
      AttackParts(cells[s], s, m.to, after.Keys, after.Keys);
      var x: Square :| InBetween(s, x, m.to) && x in cells.Keys;
      if x == m.from || x == RookFrom(m.to) {
        CastledLine(m.from, m.to, x, s);
      }
      assert false;
    }
  }

  lemma CastlingShape(cells: Cells, c: Color, rights: bv4, m: Move, s: Square)
    requires RightsHome(cells, rights) && m.kind == Castling && CanCastle(cells, c, rights, m.from, m.to) && WellTyped(cells, c, m)
    ensures
      var after := NextCells(cells, c, m);
      && RookTo(m.to) in after
      && (Owns(after, Other(c), s) ==> s in cells && cells[s] == after[s])
      && forall x :: x in cells && x != m.from && x != RookFrom(m.to) ==> x in after
  {
  }
}
