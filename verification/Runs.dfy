/** Whole games: any nesting of making legal moves, null moves and unmaking them. */
module Runs {
  import opened Types
  import opened Lookups
  import opened Rules
  import opened Legality
  import opened Pins
  import opened Evasions

  predicate Legal(p: Pos, m: Move) {
    && p.history != [] && OneKing(p.cells, p.stm)
    && InLegalList(p.cells, p.stm, p.Top().rights, p.Top().ep, KingSquare(p.cells, p.stm), m)
  }

  /** A position the engine can be in: well-formed, with the side that just moved not in check. */
  predicate Sound(p: Pos) {
    WellFormed(p) && !InCheck(p.cells, Other(p.stm))
  }

  lemma LegalIsPlayable(p: Pos, m: Move)
    requires Sound(p) && Legal(p, m)
    ensures Playable(p, m) && WellTyped(p.cells, p.stm, m)
    ensures SafeAfter(p.cells, p.stm, KingSquare(p.cells, p.stm), m)
  {
    LegalListExact(p.cells, p.stm, p.Top().rights, p.Top().ep, m, KingSquare(p.cells, p.stm));
    PseudoLegalIsWellTyped(p.cells, p.stm, p.Top().rights, p.Top().ep, m);
    if m.to in p.cells && p.cells[m.to].kind == KING {
      NeverTakesKing(p, m);
    }
  }

  lemma NeverTakesKing(p: Pos, m: Move)
    requires Sound(p) && PseudoLegal(p.cells, p.stm, p.Top().rights, p.Top().ep, m)
    requires m.to in p.cells && p.cells[m.to].kind == KING
    ensures false
  {
    hide Attacks, Rank;
    assert m.kind == Castling ==> m.to in CastlingGap(m.to);
    UnattackedMeaning(p.cells, m.to, p.stm);
    assert m.to == KingSquare(p.cells, Other(p.stm));
  }

  lemma MoverIsSafe(z: Randoms, p: Pos, m: Move)
    requires WellFormed(p) && WellTyped(p.cells, p.stm, m) && m.kind != Untyped && PseudoLegal(p.cells, p.stm, p.Top().rights, p.Top().ep, m)
    requires SafeAfter(p.cells, p.stm, KingSquare(p.cells, p.stm), m)
    requires OneKing(NextCells(p.cells, p.stm, m), p.stm)
    ensures !InCheck(NextCells(p.cells, p.stm, m), p.stm)
  {
    KeepsOwnKing(p.cells, p.stm, m, KingSquare(p.cells, p.stm));
    hide NextCells, Attacked, WellTyped, MoveTypeOf, RightsHome, EpHome, PawnsInside;
  }

  /** A legal move leads from one sound position to another and keeps the key. */
  lemma LegalKeepsSound(z: Randoms, p: Pos, m: Move)
    requires Sound(p) && HashOk(z, p) && Legal(p, m)
    ensures WellTyped(p.cells, p.stm, m) && Sound(Make(z, p, m)) && HashOk(z, Make(z, p, m))
  {
    LegalIsPlayable(p, m);
    MakeKeepsWellFormed(z, p, m);
    MakeKeepsHash(z, p, m);
    MoverIsSafe(z, p, m);
    hide NextCells, Attacked, WellTyped, MoveTypeOf, PseudoLegal, Legal, HashOk, NextHash, RightsHome, EpHome, PawnsInside;
  }

  lemma NullKeepsSound(z: Randoms, p: Pos)
    requires Sound(p) && HashOk(z, p) && !InCheck(p.cells, p.stm)
    ensures Sound(MakeNull(z, p)) && HashOk(z, MakeNull(z, p))
  {
    NullKeepsWellFormed(z, p);
    NullKeepsHash(z, p);
  }

  // ---- en passant after a played move ----

  /** Two neighbouring squares of a file strictly inside a line put the next one on it too. */
  lemma FileLine(fs: int, rs: int, fk: int, rk: int, f: int, rf: int, re: int, rt: int)
    requires (re == rf + 1 && rt == re + 1) || (re == rf - 1 && rt == re - 1)
    requires Inside(fs, rs, f, rf, fk, rk) && Inside(fs, rs, f, re, fk, rk)
    requires !(f == fs && rt == rs) && !(f == fk && rt == rk)
    ensures Inside(fs, rs, f, rt, fk, rk)
  {
  }

  /** What a double push changes, in squares. */
  lemma PushShape(cells: Cells, d: Color, m: Move)
    requires WellTyped(cells, d, m) && m.kind == DoublePush
    ensures
      var e := Behind(m.to, Other(d));
      && m.to !in cells && Moved(cells, NextCells(cells, d, m), d, m.from, m.to) && 0 <= PawnShift(m.from, d) < 64
      && Behind(PawnShift(m.from, d), Other(d)) == m.to
      && File(m.from) == File(PawnShift(m.from, d)) == File(m.to)
      && (|| (Rank(PawnShift(m.from, d)) == Rank(m.from) + 1 && Rank(m.to) == Rank(m.from) + 2)
          || (Rank(PawnShift(m.from, d)) == Rank(m.from) - 1 && Rank(m.to) == Rank(m.from) - 2))
  {
  }

  /** A piece that checks after a double push without having moved was uncovered by it, and a safe
      en-passant capture cannot close that line: the pushed pawn would stand on it. */
  lemma OnlyPushedPawnChecks(cells: Cells, d: Color, m: Move, n: Move, k: Square, s: Square)
    requires WellTyped(cells, d, m) && m.kind == DoublePush && !Attacked(cells, k, d) && Holds(cells, k, KING, Other(d))
    requires var after := NextCells(cells, d, m);
      && WellTyped(after, Other(d), n) && n.kind == EnPassant && n.to == PawnShift(m.from, d) && n.from != k
      && SafeAfter(after, Other(d), k, n) && s in Checkers(after, Other(d), k)
    ensures s == m.to
  {
    hide NextCells, Attacks, PassesTest, MoveTypeOf, RookAttacks, BishopAttacks, Clear, Attacked, Slides;
    var c, after := Other(d), NextCells(cells, d, m);
    PushShape(cells, d, m);
    UnattackedMeaning(cells, k, d);
    EpAttackedAfter(after, c, k, n);
    EpTestMeaning(after, c, k, n);
    EpShape(after, c, n);
    if s != m.to {
      var e, last := PawnShift(m.from, d), NextCells(after, c, n);
      assert s in last && last[s] == after[s] && s in cells && cells[s] == after[s];
      AttackParts(after[s], s, k, after.Keys, cells.Keys);
      AttackParts(after[s], s, k, cells.Keys, cells.Keys);
      AttackParts(after[s], s, k, last.Keys, last.Keys);
      Uncovered(cells.Keys, after.Keys, m.from, m.to, s, k);
      Reclosed(after.Keys, last.Keys, e, s, k);
      FileLine(File(s), Rank(s), File(k), Rank(k), File(m.from), Rank(m.from), Rank(e), Rank(m.to));
      NotOnClearLine(after.Keys, m.to, s, k);
      assert false;
    }
  }

  lemma NotOnClearLine(occ: Bitboard, x: Square, s: Square, k: Square)
    requires x in occ && Clear(s, k, occ)
    ensures !InBetween(s, x, k)
  {
    hide InBetween;
  }

  lemma Uncovered(occ: Bitboard, occ': Bitboard, from: Square, to: Square, s: Square, k: Square)
    requires Shifted(occ, occ', from, to) && Clear(s, k, occ') && !Clear(s, k, occ)
    ensures InBetween(s, from, k)
  {
    hide InBetween;
  }

  lemma Reclosed(occ: Bitboard, occ': Bitboard, to: Square, s: Square, k: Square)
    requires (forall x :: x in occ' ==> x in occ || x == to) && Clear(s, k, occ) && !Clear(s, k, occ')
    ensures InBetween(s, to, k)
  {
    hide InBetween;
  }

  /** A pseudo-legal move that leaves the mover's king unattacked. */
  predicate Safe(p: Pos, n: Move) {
    && p.history != [] && OneKing(p.cells, p.stm)
    && PseudoLegal(p.cells, p.stm, p.Top().rights, p.Top().ep, n) && SafeAfter(p.cells, p.stm, KingSquare(p.cells, p.stm), n)
  }

  lemma LegalIsSafe(p: Pos, n: Move)
    requires WellFormed(p)
    ensures Legal(p, n) <==> Safe(p, n) && !Overlooked(p, n)
  {
    LegalListExact(p.cells, p.stm, p.Top().rights, p.Top().ep, n, KingSquare(p.cells, p.stm));
    hide InLegalList, PseudoLegal, SafeAfter, Checkers, RightsHome, EpHome, PawnsInside;
  }

  /** In check, an en-passant capture of a pawn that gives no check. */
  predicate Overlooked(p: Pos, n: Move)
    requires OneKing(p.cells, p.stm)
  {
    var checkers := Checkers(p.cells, p.stm, KingSquare(p.cells, p.stm));
    n.kind == EnPassant && checkers != {} && Behind(n.to, p.stm) !in checkers
  }

  /** What the board shows of a safe overlooked capture: only sliders give check, and none of them
      sees the king once both pawns have left their squares and one stands on the crossed one. */
  predicate Omitted(p: Pos, n: Move)
    requires WellFormed(p)
  {
    var k := KingSquare(p.cells, p.stm);
    && n.kind == EnPassant && 0 <= Behind(n.to, p.stm) < 64 && PseudoLegal(p.cells, p.stm, p.Top().rights, p.Top().ep, n)
    && Overlooked(p, n) && (forall s :: s in Checkers(p.cells, p.stm, k) ==> Slider(p.cells[s]))
    && PassesTest(p.cells, p.stm, k, n, {})
  }

  lemma OnlySliders(cells: Cells, c: Color, k: Square, victim: int)
    requires victim !in Checkers(cells, c, k)
    ensures (exists s :: s != victim && StepCheck(cells, c, k, s)) <==> exists s :: s in Checkers(cells, c, k) && !Slider(cells[s])
  {
    hide Attacks, Slider;
    if s :| s != victim && StepCheck(cells, c, k, s) {
      assert s in Checkers(cells, c, k);
    }
    if s :| s in Checkers(cells, c, k) && !Slider(cells[s]) {
      assert StepCheck(cells, c, k, s);
    }
  }

  lemma SafeEnPassant(cells: Cells, c: Color, k: Square, n: Move)
    requires WellTyped(cells, c, n) && n.kind == EnPassant && n.from != k && Behind(n.to, c) !in Checkers(cells, c, k)
    ensures SafeAfter(cells, c, k, n) <==>
      PassesTest(cells, c, k, n, {}) && forall s :: s in Checkers(cells, c, k) ==> Slider(cells[s])
  {
    EpAttackedAfter(cells, c, k, n);
    OnlySliders(cells, c, k, Behind(n.to, c));
    hide NextCells, PassesTest, Attacked, StepCheck, Checkers, MoveTypeOf;
  }

  lemma OmittedMeaning(p: Pos, n: Move)
    requires WellFormed(p)
    ensures Omitted(p, n) <==> Overlooked(p, n) && Safe(p, n)
  {
    hide RightsHome, EpHome, PawnsInside, SafeAfter, PassesTest, KingSquare, OneKing, PseudoLegal, Checkers, WellTyped;
    if n.kind == EnPassant && PseudoLegal(p.cells, p.stm, p.Top().rights, p.Top().ep, n) {
      PseudoLegalIsWellTyped(p.cells, p.stm, p.Top().rights, p.Top().ep, n);
      EpMoverIsPawn(p, n);
      if Overlooked(p, n) {
        SafeEnPassant(p.cells, p.stm, KingSquare(p.cells, p.stm), n);
      }
    }
  }

  lemma EpMoverIsPawn(p: Pos, n: Move)
    requires WellFormed(p) && n.kind == EnPassant && PseudoLegal(p.cells, p.stm, p.Top().rights, p.Top().ep, n)
    ensures n.from != KingSquare(p.cells, p.stm) && 0 <= Behind(n.to, p.stm) < 64
  {
    hide Attacks, RightsHome, PawnsInside;
  }

  /** The legal move list of a well-formed position is complete exactly when the board shows no such
      capture. */
  lemma ListCompleteExactly(p: Pos)
    requires WellFormed(p)
    ensures (forall n :: Legal(p, n) <==> Safe(p, n)) <==> forall from: Square :: p.Top().ep.Some? ==>
      !Omitted(p, Move(from, p.Top().ep.value, PAWN, EnPassant))
  {
    hide Legal, SafeAfter, Checkers, KingSquare, Attacks, CanCastle, RightsHome, EpHome, PawnsInside, PassesTest, Omitted;
    forall n: Move ensures (Legal(p, n) <==> Safe(p, n) && !Overlooked(p, n)) && (Omitted(p, n) <==> Overlooked(p, n) && Safe(p, n)) {
      LegalIsSafe(p, n);
      OmittedMeaning(p, n);
    }
    if n :| Overlooked(p, n) && Safe(p, n) {
      assert n == Move(n.from, p.Top().ep.value, PAWN, EnPassant);
    }
  }

  /** After any legal move the list holds every safe pseudo-legal move: only the pushed pawn can
      check beside a safe en-passant capture. */
  lemma ListCompleteAfterMove(z: Randoms, p: Pos, m: Move, n: Move)
    requires Sound(p) && Legal(p, m) && WellTyped(p.cells, p.stm, m)
    ensures WellFormed(Make(z, p, m)) && (Legal(Make(z, p, m), n) <==> Safe(Make(z, p, m), n))
  {
    LegalIsPlayable(p, m);
    MakeKeepsWellFormed(z, p, m);
    var q := Make(z, p, m);
    LegalIsSafe(q, n);
    if Overlooked(q, n) && Safe(q, n) {
      NothingOverlooked(z, p, m, n);
    }
  }

  lemma NothingOverlooked(z: Randoms, p: Pos, m: Move, n: Move)
    requires Sound(p) && Playable(p, m) && WellTyped(p.cells, p.stm, m) && WellFormed(Make(z, p, m))
    requires Safe(Make(z, p, m), n)
    ensures !Overlooked(Make(z, p, m), n)
  {
    var q := Make(z, p, m);
    var d, k := p.stm, KingSquare(q.cells, q.stm);
    if Overlooked(q, n) {
      var s :| s in Checkers(q.cells, q.stm, k);
      KeepsOtherKing(p.cells, d, m, KingSquare(p.cells, Other(d)));
      PseudoLegalIsWellTyped(q.cells, q.stm, q.Top().rights, q.Top().ep, n);
      hide NextCells, Attacks, RightsHome, EpHome, PawnsInside, SafeAfter, NextHash, CanCastle, Attacked;
      PushShape(p.cells, d, m);
      OnlyPushedPawnChecks(p.cells, d, m, n, k, s);
      assert false;
    }
  }

  /** One step down: a legal move, or a null move out of check. */
  ghost predicate Step(z: Randoms, p: Pos, q: Pos) {
    NullStep(z, p, q) || exists m :: MoveStep(z, p, m, q)
  }

  predicate NullStep(z: Randoms, p: Pos, q: Pos) {
    p.history != [] && OneKing(p.cells, p.stm) && !InCheck(p.cells, p.stm) && q == MakeNull(z, p)
  }

  predicate MoveStep(z: Randoms, p: Pos, m: Move, q: Pos) {
    p.history != [] && Legal(p, m) && WellTyped(p.cells, p.stm, m) && q == Make(z, p, m)
  }

  /** The positions from the root down to the current one. */
  ghost predicate Line(z: Randoms, line: seq<Pos>) {
    && line != [] && Sound(line[0]) && HashOk(z, line[0])
    && forall i :: 0 <= i < |line| - 1 ==> Step(z, line[i], line[i + 1])
  }

  lemma StepKeepsSound(z: Randoms, p: Pos, q: Pos)
    requires Step(z, p, q) && Sound(p) && HashOk(z, p)
    ensures Sound(q) && HashOk(z, q) && CanUnmake(q) && Unmake(q) == p
    ensures |q.history| == |p.history| + 1 && q.history[..|p.history|] == p.history
  {
    if NullStep(z, p, q) {
      NullKeepsSound(z, p);
      UnmakeUndoesNull(z, p);
    } else {
      var m :| MoveStep(z, p, m, q);
      LegalKeepsSound(z, p, m);
      UnmakeUndoesMake(z, p, m);
    }
  }

  /** In every reachable position the boards are well-formed, the side that moved is safe, and
      the stored key equals the key computed from scratch. */
  lemma {:induction false} LineIsSound(z: Randoms, line: seq<Pos>, i: nat)
    requires Line(z, line) && i < |line|
    ensures Sound(line[i]) && HashOk(z, line[i])
    ensures |line[i].history| == |line[0].history| + i
  {
    if i > 0 {
      LineIsSound(z, line, i - 1);
      assert Step(z, line[i - 1], line[i]);
      StepKeepsSound(z, line[i - 1], line[i]);
    }
  }

  /** Sides alternate, and the full-move counter counts Black's moves. */
  lemma {:induction false} LineCountsMoves(z: Randoms, line: seq<Pos>, i: nat)
    requires Line(z, line) && i < |line|
    ensures line[i].stm == if i % 2 == 0 then line[0].stm else Other(line[0].stm)
    ensures line[i].fullmoves == line[0].fullmoves + if line[0].stm == BLACK then (i + 1) / 2 else i / 2
  {
    hide Step, Sound, HashOk;
    if i > 0 {
      LineCountsMoves(z, line, i - 1);
      assert Step(z, line[i - 1], line[i]);
      StepCounts(z, line[i - 1], line[i]);
    }
  }

  lemma StepCounts(z: Randoms, p: Pos, q: Pos)
    requires Step(z, p, q)
    ensures q.stm == Other(p.stm) && q.fullmoves == p.fullmoves + if p.stm == BLACK then 1 else 0
  {
    hide Legal, WellTyped, NextCells, NextHash, InCheck;
  }

  lemma RelocateSize(cells: Cells, from: Square, to: Square)
    requires from in cells && to !in cells
    ensures |Relocate(cells, from, to)| == |cells|
  {
    RemoveSize(cells, from);
    PutSize(Remove(cells, from), to, cells[from]);
  }

  lemma PutSize(cells: Cells, s: Square, p: Piece)
    requires s !in cells
    ensures |Put(cells, s, p)| == |cells| + 1
  {
    assert Put(cells, s, p).Keys == cells.Keys + {s};
    assert |cells.Keys| == |cells| && |Put(cells, s, p).Keys| == |Put(cells, s, p)|;
  }

  lemma RemoveSize(cells: Cells, s: Square)
    requires s in cells
    ensures |Remove(cells, s)| == |cells| - 1
  {
    assert Remove(cells, s).Keys == cells.Keys - {s};
    assert |cells.Keys| == |cells| && |Remove(cells, s).Keys| == |Remove(cells, s)|;
  }

  /** A capture takes one piece off the board; every other move keeps the number of pieces. */
  lemma MovePieceCount(cells: Cells, stm: Color, m: Move)
    requires WellTyped(cells, stm, m)
    ensures |NextCells(cells, stm, m)| ==
      |cells| - if MoveTypeOf(cells, m) in {Capture, EnPassant, CapturePromotion} then 1 else 0
  {
    match MoveTypeOf(cells, m)
    case Normal => RelocateSize(cells, m.from, m.to);
    case Capture => RemoveSize(cells, m.to); RelocateSize(Remove(cells, m.to), m.from, m.to);
    case DoublePush => RelocateSize(cells, m.from, m.to);
    case EnPassant => RelocateSize(cells, m.from, m.to); RemoveSize(Relocate(cells, m.from, m.to), Behind(m.to, stm));
    case Castling =>
      RelocateSize(cells, m.from, m.to);
      RelocateSize(Relocate(cells, m.from, m.to), RookFrom(m.to), RookTo(m.to));
    case Promotion =>
      RemoveSize(cells, m.from);
      PutSize(Remove(cells, m.from), m.to, Piece(m.promotion, stm));
    case CapturePromotion =>
      RemoveSize(cells, m.to);
      RemoveSize(Remove(cells, m.to), m.from);
      PutSize(Remove(Remove(cells, m.to), m.from), m.to, Piece(m.promotion, stm));
    case Untyped =>
  }

  lemma StepPieceCount(z: Randoms, p: Pos, q: Pos)
    requires Step(z, p, q) && Sound(p)
    ensures |p.cells| - 1 <= |q.cells| <= |p.cells|
  {
    hide Sound, Legal, NextCells, WellTyped;
    if !NullStep(z, p, q) {
      var m :| MoveStep(z, p, m, q);
      LegalIsPlayable(p, m);
      MovePieceCount(p.cells, p.stm, m);
    }
  }

  /** The number of pieces never grows along a line. */
  lemma {:induction false} LinePieceCount(z: Randoms, line: seq<Pos>, i: nat)
    requires Line(z, line) && i < |line|
    ensures |line[0].cells| - i <= |line[i].cells| <= |line[0].cells|
  {
    hide Step, Sound, HashOk;
    if i > 0 {
      LinePieceCount(z, line, i - 1);
      LineIsSound(z, line, i - 1);
      assert Step(z, line[i - 1], line[i]);
      StepPieceCount(z, line[i - 1], line[i]);
    }
  }

  lemma StepListComplete(z: Randoms, p: Pos, q: Pos, n: Move)
    requires Step(z, p, q) && Sound(p) && HashOk(z, p)
    ensures Legal(q, n) <==> Safe(q, n)
  {
    if NullStep(z, p, q) {
      NullKeepsSound(z, p);
      LegalIsSafe(q, n);
      hide Legal, SafeAfter, Checkers, Attacks, NullStep, Sound;
    } else {
      var m :| MoveStep(z, p, m, q);
      ListCompleteAfterMove(z, p, m, n);
      hide Legal, Safe, Make, WellTyped, Sound;
    }
  }

  /** On every line the legal move list is exactly the safe pseudo-legal moves in each position
      after the root. */
  lemma LineListComplete(z: Randoms, line: seq<Pos>, i: nat, n: Move)
    requires Line(z, line) && 0 < i < |line|
    ensures Legal(line[i], n) <==> Safe(line[i], n)
  {
    hide Legal, Safe, Sound, HashOk, Step;
    LineIsSound(z, line, i - 1);
    assert Step(z, line[i - 1], line[i]);
    StepListComplete(z, line[i - 1], line[i], n);
  }

  /** `n` calls of `unmake_move` are possible from `p` and lead to `q`. */
  ghost predicate Unwinds(p: Pos, n: nat, q: Pos)
    decreases n
  {
    if n == 0 then p == q else CanUnmake(p) && Unwinds(Unmake(p), n - 1, q)
  }

  /** Unmaking any number of the moves made returns to exactly the position they were made in. */
  lemma {:induction false} UnwindReturns(z: Randoms, line: seq<Pos>, n: nat)
    requires Line(z, line) && n < |line|
    ensures Unwinds(line[|line| - 1], n, line[|line| - 1 - n])
  {
    hide Make, MakeNull, Sound, HashOk, NullStep, Step, Unmake, CanUnmake;
    if n > 0 {
      var last := |line| - 1;
      LineIsSound(z, line, last - 1);
      assert Step(z, line[last - 1], line[last]);
      StepKeepsSound(z, line[last - 1], line[last]);
      UnwindReturns(z, line[..last], n - 1);
    }
  }

  datatype Op = Down(m: Move) | Skip | Up

  predicate Enabled(p: Pos, depth: nat, op: Op) {
    match op
    case Down(m) => p.history != [] && Legal(p, m) && WellTyped(p.cells, p.stm, m)
    case Skip => p.history != [] && OneKing(p.cells, p.stm) && !InCheck(p.cells, p.stm)
    case Up => depth > 0 && CanUnmake(p)
  }

  function Apply(z: Randoms, p: Pos, depth: nat, op: Op): (Pos, nat)
    requires Enabled(p, depth, op)
  {
    match op
    case Down(m) => (Make(z, p, m), depth + 1)
    case Skip => (MakeNull(z, p), depth + 1)
    case Up => (Unmake(p), depth - 1)
  }

  /** `ops` runs from `p` at `depth` and ends in `q`. */
  ghost predicate Runs(z: Randoms, p: Pos, depth: nat, ops: seq<Op>, q: Pos, end: nat)
    decreases |ops|
  {
    if ops == [] then p == q && depth == end
    else Enabled(p, depth, ops[0]) && var next := Apply(z, p, depth, ops[0]); Runs(z, next.0, next.1, ops[1..], q, end)
  }

  /** However makes, null moves and unmakes are nested, the engine is always at the end of a line
      of steps from the root: unmaking never needs more than the history records. */
  lemma {:induction false} RunFollowsLine(z: Randoms, line: seq<Pos>, ops: seq<Op>, q: Pos, end: nat) returns (line': seq<Pos>)
    requires Line(z, line) && Runs(z, line[|line| - 1], |line| - 1, ops, q, end)
    ensures Line(z, line') && line'[|line'| - 1] == q && |line'| == end + 1 && line'[0] == line[0]
    decreases |ops|
  {
    hide Legal, WellTyped, Make, MakeNull, Unmake, CanUnmake, Sound, HashOk, NullStep, Step;
    if ops == [] {
      return line;
    }
    var last := |line| - 1;
    var next := Apply(z, line[last], last, ops[0]);
    if ops[0].Up? {
      LineIsSound(z, line, last - 1);
      assert Step(z, line[last - 1], line[last]);
      StepKeepsSound(z, line[last - 1], line[last]);
      line' := RunFollowsLine(z, line[..last], ops[1..], q, end);
    } else {
      DownIsStep(z, line[last], last, ops[0]);
      var longer := line + [next.0];
      forall i | 0 <= i < |longer| - 1 ensures Step(z, longer[i], longer[i + 1]) {
        assert i < last ==> Step(z, line[i], line[i + 1]);
      }
      line' := RunFollowsLine(z, longer, ops[1..], q, end);
    }
  }

  lemma DownIsStep(z: Randoms, p: Pos, depth: nat, op: Op)
    requires Enabled(p, depth, op) && !op.Up?
    ensures Step(z, p, Apply(z, p, depth, op).0)
  {
    hide Legal, WellTyped, Make, MakeNull;
    if op.Down? {
      assert MoveStep(z, p, op.m, Apply(z, p, depth, op).0);
    }
  }

  /** Every state reachable by makes, null moves and unmakes from a sound root is sound, its
      stored key is the full key, and the history is exactly as deep as the moves pending. */
  lemma ReachableIsSound(z: Randoms, root: Pos, ops: seq<Op>, q: Pos, end: nat)
    requires Sound(root) && HashOk(z, root) && Runs(z, root, 0, ops, q, end)
    ensures Sound(q) && HashOk(z, q) && |q.history| == |root.history| + end
    ensures |q.cells| <= |root.cells|
    ensures end == 0 ==> q == root
    ensures end > 0 ==> CanUnmake(q)
  {
    hide Legal, WellTyped, Make, MakeNull, Unmake, CanUnmake, HashOk, NullStep, Step, Runs;
    var line := RunFollowsLine(z, [root], ops, q, end);
    LineIsSound(z, line, |line| - 1);
    LinePieceCount(z, line, |line| - 1);
    if end > 0 {
      LineIsSound(z, line, end - 1);
      assert Step(z, line[end - 1], line[end]);
      StepKeepsSound(z, line[end - 1], line[end]);
    }
  }

  // ---- any root, any move that can be made ----

  /** A move that can be made, or a null move; neither legality nor a sound position is asked for. */
  ghost predicate AnyStep(z: Randoms, p: Pos, q: Pos) {
    p.history != [] && (q == MakeNull(z, p) || exists m :: WellTyped(p.cells, p.stm, m) && q == Make(z, p, m))
  }

  predicate AnyEnabled(p: Pos, depth: nat, op: Op) {
    match op
    case Down(m) => p.history != [] && WellTyped(p.cells, p.stm, m)
    case Skip => p.history != []
    case Up => depth > 0 && CanUnmake(p)
  }

  function AnyApply(z: Randoms, p: Pos, depth: nat, op: Op): (Pos, nat)
    requires AnyEnabled(p, depth, op)
  {
    match op
    case Down(m) => (Make(z, p, m), depth + 1)
    case Skip => (MakeNull(z, p), depth + 1)
    case Up => (Unmake(p), depth - 1)
  }

  ghost predicate AnyRuns(z: Randoms, p: Pos, depth: nat, ops: seq<Op>, q: Pos, end: nat)
    decreases |ops|
  {
    if ops == [] then p == q && depth == end
    else AnyEnabled(p, depth, ops[0]) && var next := AnyApply(z, p, depth, ops[0]); AnyRuns(z, next.0, next.1, ops[1..], q, end)
  }

  ghost predicate AnyLine(z: Randoms, line: seq<Pos>) {
    && line != [] && (forall i :: 0 <= i < |line| ==> line[i].history != [] && HashOk(z, line[i]))
    && forall i :: 0 <= i < |line| - 1 ==> AnyStep(z, line[i], line[i + 1])
  }

  lemma AnyStepBack(z: Randoms, p: Pos, q: Pos)
    requires AnyStep(z, p, q) && HashOk(z, p)
    ensures q.history != [] && HashOk(z, q) && CanUnmake(q) && Unmake(q) == p
  {
    if q == MakeNull(z, p) {
      NullKeepsHash(z, p);
      UnmakeUndoesNull(z, p);
    } else {
      var m :| WellTyped(p.cells, p.stm, m) && q == Make(z, p, m);
      MakeKeepsHash(z, p, m);
      UnmakeUndoesMake(z, p, m);
    }
    hide HashOk, WellTyped, Unmake, CanUnmake, NextCells, NextHash;
  }

  lemma {:induction false} AnyLineGrows(z: Randoms, line: seq<Pos>, q: Pos)
    requires AnyLine(z, line) && AnyStep(z, line[|line| - 1], q)
    ensures AnyLine(z, line + [q])
  {
    hide AnyStep, HashOk;
    AnyStepBack(z, line[|line| - 1], q);
    var longer := line + [q];
    forall i | 0 <= i < |longer| - 1 ensures AnyStep(z, longer[i], longer[i + 1]) {
      assert i < |line| - 1 ==> AnyStep(z, line[i], line[i + 1]);
    }
  }

  /** From any root whose stored key is right, however makes, null moves and unmakes are nested and
      whether or not the moves are legal: the stored key is the key from scratch, and at depth zero
      the position is the root itself. */
  lemma {:induction false} KeyAlongAnyRun(z: Randoms, line: seq<Pos>, ops: seq<Op>, q: Pos, end: nat)
    requires AnyLine(z, line) && AnyRuns(z, line[|line| - 1], |line| - 1, ops, q, end)
    ensures q.history != [] && HashOk(z, q) && (end == 0 ==> q == line[0])
    decreases |ops|
  {
    hide AnyStep, HashOk, WellTyped, Make, MakeNull, Unmake, CanUnmake;
    if ops != [] {
      var last := |line| - 1;
      var next := AnyApply(z, line[last], last, ops[0]);
      if ops[0].Up? {
        assert AnyStep(z, line[last - 1], line[last]);
        AnyStepBack(z, line[last - 1], line[last]);
        KeyAlongAnyRun(z, line[..last], ops[1..], q, end);
      } else {
        AnyDownIsStep(z, line[last], last, ops[0]);
        AnyLineGrows(z, line, next.0);
        KeyAlongAnyRun(z, line + [next.0], ops[1..], q, end);
      }
    }
  }

  lemma AnyDownIsStep(z: Randoms, p: Pos, depth: nat, op: Op)
    requires AnyEnabled(p, depth, op) && !op.Up?
    ensures AnyStep(z, p, AnyApply(z, p, depth, op).0)
  {
    hide WellTyped, Make, MakeNull;
  }
}
