/** Attack geometry: step attacks by the engine's square offsets and file masks, sliding attacks
    by walking rays, and the pin helpers `FullRay` and `Intervening`. The lemmas give each of
    them its meaning in file/rank coordinates. */
module Lookups {
  import opened Types

  function File(s: Square): (f: int)
    ensures 0 <= f < 8
  {
    s % 8
  }

  function Rank(s: Square): (r: int)
    ensures 0 <= r < 8 && s == 8 * r + File(s)
  {
    s / 8
  }

  predicate OnBoard(f: int, r: int) {
    0 <= f < 8 && 0 <= r < 8
  }

  function At(f: int, r: int): (s: Square)
    requires OnBoard(f, r)
    ensures File(s) == f && Rank(s) == r
  {
    8 * r + f
  }

  /** `{sq + offset} & ~mask`, empty when the shift leaves the board. */
  function Offset(s: Square, offset: int, maskedFiles: set<int>): Bitboard {
    if 0 <= s + offset < 64 && (s + offset) % 8 !in maskedFiles then {s + offset} else {}
  }

  /** The files a shift by `df` files can only reach by wrapping around the board edge. */
  function Mask(df: int): set<int> {
    if df == 1 then {0} else if df == 2 then {0, 1} else if df == -1 then {7} else if df == -2 then {6, 7} else {}
  }

  function PawnAttacks(s: Square, c: Color): Bitboard {
    if c == WHITE then
      (if s <= 55 then Offset(s, 7, Mask(-1)) else {}) + (if s <= 54 then Offset(s, 9, Mask(1)) else {})
    else
      (if s >= 8 then Offset(s, -7, Mask(1)) else {}) + (if s >= 9 then Offset(s, -9, Mask(-1)) else {})
  }

  function KnightAttacks(s: Square): Bitboard {
    (if s <= 46 then Offset(s, 17, Mask(1)) else {}) + (if s <= 47 then Offset(s, 15, Mask(-1)) else {}) +
    (if s >= 17 then Offset(s, -17, Mask(-1)) else {}) + (if s >= 16 then Offset(s, -15, Mask(1)) else {}) +
    (if s <= 53 then Offset(s, 10, Mask(2)) else {}) + (if s <= 55 then Offset(s, 6, Mask(-2)) else {}) +
    (if s >= 10 then Offset(s, -10, Mask(-2)) else {}) + (if s >= 8 then Offset(s, -6, Mask(2)) else {})
  }

  function KingAttacks(s: Square): Bitboard {
    (if s <= 54 then Offset(s, 9, Mask(1)) else {}) +
    (if s <= 55 then Offset(s, 8, Mask(0)) + Offset(s, 7, Mask(-1)) else {}) +
    (if s <= 62 then Offset(s, 1, Mask(1)) else {}) + (if s >= 1 then Offset(s, -1, Mask(-1)) else {}) +
    (if s >= 8 then Offset(s, -7, Mask(1)) + Offset(s, -8, Mask(0)) else {}) +
    (if s >= 9 then Offset(s, -9, Mask(-1)) else {})
  }

  /** The square one pawn rank ahead for colour `c`, when there is one. */
  function PawnShift(s: Square, c: Color): int {
    if c == WHITE then s + 8 else s - 8
  }

  function RelativeRank(r: int, c: Color): int {
    if c == WHITE then r else 7 - r
  }

  // ---- rays ----

  predicate Direction(df: int, dr: int) {
    -1 <= df <= 1 && -1 <= dr <= 1 && !(df == 0 && dr == 0)
  }

  function Room(x: int, d: int): int {
    if d > 0 then 7 - x else if d < 0 then x else 8
  }

  /** The squares a slider on `s` reaches in one direction: up to and including the first
      occupied one. */
  function Walk(s: Square, df: int, dr: int, occ: Bitboard): Bitboard
    requires Direction(df, dr)
    decreases Min(Room(File(s), df), Room(Rank(s), dr))
  {
    if !OnBoard(File(s) + df, Rank(s) + dr) then {}
    else
      var n := At(File(s) + df, Rank(s) + dr);
      if n in occ then {n} else {n} + Walk(n, df, dr, occ)
  }

  function RookAttacks(s: Square, occ: Bitboard): Bitboard {
    Walk(s, 0, 1, occ) + Walk(s, 1, 0, occ) + Walk(s, 0, -1, occ) + Walk(s, -1, 0, occ)
  }

  function BishopAttacks(s: Square, occ: Bitboard): Bitboard {
    Walk(s, 1, 1, occ) + Walk(s, 1, -1, occ) + Walk(s, -1, -1, occ) + Walk(s, -1, 1, occ)
  }

  function NonPawnAttacks(k: PieceType, s: Square, occ: Bitboard): Bitboard {
    if k == KNIGHT then KnightAttacks(s)
    else if k == BISHOP then BishopAttacks(s, occ)
    else if k == ROOK then RookAttacks(s, occ)
    else if k == QUEEN then RookAttacks(s, occ) + BishopAttacks(s, occ)
    else if k == KING then KingAttacks(s)
    else {}
  }

  // ---- lines ----

  predicate RookLine(a: Square, b: Square) {
    a != b && (File(a) == File(b) || Rank(a) == Rank(b))
  }

  predicate PlusLine(a: Square, b: Square) {
    a != b && Rank(a) - File(a) == Rank(b) - File(b)
  }

  predicate MinusLine(a: Square, b: Square) {
    a != b && Rank(a) + File(a) == Rank(b) + File(b)
  }

  predicate BishopLine(a: Square, b: Square) {
    PlusLine(a, b) || MinusLine(a, b)
  }

  predicate StrictlyInside(x: int, y: int, z: int) {
    x < y < z || z < y < x
  }

  /** Coordinate form: (fm, rm) strictly between two points on a common file, rank or diagonal. */
  predicate Inside(fa: int, ra: int, fm: int, rm: int, fb: int, rb: int) {
    || (fa == fm == fb && StrictlyInside(ra, rm, rb))
    || (ra == rm == rb && StrictlyInside(fa, fm, fb))
    || (ra - fa == rm - fm == rb - fb && StrictlyInside(fa, fm, fb))
    || (ra + fa == rm + fm == rb + fb && StrictlyInside(fa, fm, fb))
  }

  predicate InBetween(a: Square, m: Square, b: Square) {
    Inside(File(a), Rank(a), File(m), Rank(m), File(b), Rank(b))
  }

  /** Two different squares from each of which `x` lies inside the way to `k`: one is inside the
      other's way. */
  lemma SameSide(fa: int, ra: int, fb: int, rb: int, fx: int, rx: int, fk: int, rk: int)
    requires Inside(fa, ra, fx, rx, fk, rk) && Inside(fb, rb, fx, rx, fk, rk) && !(fa == fb && ra == rb)
    ensures Inside(fa, ra, fb, rb, fk, rk) || Inside(fb, rb, fa, ra, fk, rk)
  {
  }

  function Between(a: Square, b: Square): Bitboard {
    set m: Square | InBetween(a, m, b)
  }

  predicate Clear(a: Square, b: Square, occ: Bitboard) {
    forall m: Square :: InBetween(a, m, b) ==> m !in occ
  }

  /** `full_ray`: the whole file, rank or diagonal through two aligned squares. */
  function FullRay(from: Square, to: Square): Bitboard {
    if from == to then {}
    else if File(from) == File(to) then set s: Square | File(s) == File(from)
    else if Rank(from) == Rank(to) then set s: Square | Rank(s) == Rank(from)
    else
      var high := if from > to then from else to;
      var low := if from > to then to else from;
      if File(high) - File(low) == Rank(high) - Rank(low) then
        set s: Square | Rank(s) - File(s) == Rank(from) - File(from)
      else if File(low) - File(high) == Rank(high) - Rank(low) then
        set s: Square | Rank(s) + File(s) == Rank(from) + File(from)
      else {}
  }

  /** `intervening`: meet of the two opposite empty-board rays. */
  function Intervening(from: Square, to: Square): Bitboard {
    if from == to then {} else if from > to then Meet(to, from) else Meet(from, to)
  }

  function Meet(low: Square, high: Square): Bitboard {
    if File(high) == File(low) then Walk(low, 0, 1, {}) * Walk(high, 0, -1, {})
    else if Rank(high) == Rank(low) then Walk(low, 1, 0, {}) * Walk(high, -1, 0, {})
    else if File(high) - File(low) == Rank(high) - Rank(low) then Walk(low, 1, 1, {}) * Walk(high, -1, -1, {})
    else if File(low) - File(high) == Rank(high) - Rank(low) then Walk(low, -1, 1, {}) * Walk(high, 1, -1, {})
    else {}
  }

  // ---- what the lookups mean ----

  lemma OffsetMeaning(s: Square, df: int, dr: int, t: Square)
    requires -2 <= df <= 2 && -2 <= dr <= 2
    ensures t in Offset(s, 8 * dr + df, Mask(df)) <==> File(t) - File(s) == df && Rank(t) - Rank(s) == dr
  {
  }

  lemma PawnAttacksMeaning(s: Square, c: Color, t: Square)
    ensures t in PawnAttacks(s, c) <==>
      Abs(File(t) - File(s)) == 1 && Rank(t) - Rank(s) == (if c == WHITE then 1 else -1)
  {
    var d := if c == WHITE then 1 else -1;
    OffsetMeaning(s, -1, d, t);
    OffsetMeaning(s, 1, d, t);
  }

  lemma KnightAttacksMeaning(s: Square, t: Square)
    ensures t in KnightAttacks(s) <==>
      var df, dr := File(t) - File(s), Rank(t) - Rank(s);
      (Abs(df) == 1 && Abs(dr) == 2) || (Abs(df) == 2 && Abs(dr) == 1)
  {
    hide Offset, Mask;
    OffsetMeaning(s, 1, 2, t);
    OffsetMeaning(s, -1, 2, t);
    OffsetMeaning(s, -1, -2, t);
    OffsetMeaning(s, 1, -2, t);
    OffsetMeaning(s, 2, 1, t);
    OffsetMeaning(s, -2, 1, t);
    OffsetMeaning(s, -2, -1, t);
    OffsetMeaning(s, 2, -1, t);
  }

  lemma KingAttacksMeaning(s: Square, t: Square)
    ensures t in KingAttacks(s) <==>
      s != t && Abs(File(t) - File(s)) <= 1 && Abs(Rank(t) - Rank(s)) <= 1
  {
    hide Offset, Mask;
    OffsetMeaning(s, 1, 1, t);
    OffsetMeaning(s, 0, 1, t);
    OffsetMeaning(s, -1, 1, t);
    OffsetMeaning(s, 1, 0, t);
    OffsetMeaning(s, -1, 0, t);
    OffsetMeaning(s, 1, -1, t);
    OffsetMeaning(s, 0, -1, t);
    OffsetMeaning(s, -1, -1, t);
  }

  function Times(k: int, d: int): int {
    if d > 0 then k else if d < 0 then -k else 0
  }

  /** (ft, rt) lies in direction (df, dr) from (fs, rs). */
  predicate Toward(fs: int, rs: int, ft: int, rt: int, df: int, dr: int) {
    var k := Max(Abs(ft - fs), Abs(rt - rs));
    k > 0 && ft == fs + Times(k, df) && rt == rs + Times(k, dr)
  }

  predicate Ahead(s: Square, t: Square, df: int, dr: int) {
    Toward(File(s), Rank(s), File(t), Rank(t), df, dr)
  }

  lemma TowardStep(fs: int, rs: int, ft: int, rt: int, df: int, dr: int, fm: int, rm: int)
    requires Direction(df, dr)
    ensures Toward(fs, rs, ft, rt, df, dr) <==>
      (ft == fs + df && rt == rs + dr) || Toward(fs + df, rs + dr, ft, rt, df, dr)
    ensures !Inside(fs, rs, fm, rm, fs + df, rs + dr)
    ensures Toward(fs + df, rs + dr, ft, rt, df, dr) ==>
      (Inside(fs, rs, fm, rm, ft, rt) <==>
        (fm == fs + df && rm == rs + dr) || Inside(fs + df, rs + dr, fm, rm, ft, rt))
  {
  }

  lemma ClearStep(s: Square, t: Square, df: int, dr: int, n: Square, occ: Bitboard)
    requires Direction(df, dr) && File(n) == File(s) + df && Rank(n) == Rank(s) + dr
    ensures Clear(s, n, occ)
    ensures Ahead(n, t, df, dr) ==> (Clear(s, t, occ) <==> n !in occ && Clear(n, t, occ))
  {
    forall m: Square
      ensures !InBetween(s, m, n)
      ensures Ahead(n, t, df, dr) ==> (InBetween(s, m, t) <==> m == n || InBetween(n, m, t))
    {
      TowardStep(File(s), Rank(s), File(t), Rank(t), df, dr, File(m), Rank(m));
    }
  }

  lemma NothingBeyond(s: Square, t: Square, df: int, dr: int)
    requires Direction(df, dr) && !OnBoard(File(s) + df, Rank(s) + dr)
    ensures !Ahead(s, t, df, dr)
  {
  }

  /** A ray walk stops exactly where the line of sight does. */
  lemma {:induction false} WalkMeaning(s: Square, df: int, dr: int, occ: Bitboard, t: Square)
    requires Direction(df, dr)
    ensures t in Walk(s, df, dr, occ) <==> Ahead(s, t, df, dr) && Clear(s, t, occ)
    decreases Min(Room(File(s), df), Room(Rank(s), dr))
  {
    hide Clear, Toward;
    TowardStep(File(s), Rank(s), File(t), Rank(t), df, dr, 0, 0);
    if !OnBoard(File(s) + df, Rank(s) + dr) {
      NothingBeyond(s, t, df, dr);
    } else {
      var n := At(File(s) + df, Rank(s) + dr);
      ClearStep(s, t, df, dr, n, occ);
      if n !in occ {
        WalkMeaning(n, df, dr, occ, t);
      }
    }
  }

  lemma RookAttacksMeaning(s: Square, occ: Bitboard, t: Square)
    ensures t in RookAttacks(s, occ) <==> RookLine(s, t) && Clear(s, t, occ)
  {
    hide Walk, Clear;
    WalkMeaning(s, 0, 1, occ, t);
    WalkMeaning(s, 1, 0, occ, t);
    WalkMeaning(s, 0, -1, occ, t);
    WalkMeaning(s, -1, 0, occ, t);
  }

  lemma BishopAttacksMeaning(s: Square, occ: Bitboard, t: Square)
    ensures t in BishopAttacks(s, occ) <==> BishopLine(s, t) && Clear(s, t, occ)
  {
    hide Walk, Clear;
    WalkMeaning(s, 1, 1, occ, t);
    WalkMeaning(s, 1, -1, occ, t);
    WalkMeaning(s, -1, -1, occ, t);
    WalkMeaning(s, -1, 1, occ, t);
  }

  lemma OppositeRays(low: Square, high: Square, df: int, dr: int, m: Square)
    requires Direction(df, dr) && Ahead(low, high, df, dr)
    ensures m in Walk(low, df, dr, {}) * Walk(high, -df, -dr, {}) <==> InBetween(low, m, high)
  {
    hide Walk;
    WalkMeaning(low, df, dr, {}, m);
    WalkMeaning(high, -df, -dr, {}, m);
    assert Clear(low, m, {}) && Clear(high, m, {});
    MeetCoordinates(File(low), Rank(low), File(high), Rank(high), df, dr, File(m), Rank(m));
  }

  lemma MeetCoordinates(fl: int, rl: int, fh: int, rh: int, df: int, dr: int, fm: int, rm: int)
    requires Direction(df, dr) && Toward(fl, rl, fh, rh, df, dr)
    ensures Toward(fl, rl, fm, rm, df, dr) && Toward(fh, rh, fm, rm, -df, -dr) <==> Inside(fl, rl, fm, rm, fh, rh)
  {
  }

  lemma Aligned(a: Square, m: Square, b: Square)
    ensures InBetween(a, m, b) ==> RookLine(a, b) || BishopLine(a, b)
  {
  }

  lemma MeetMeaning(low: Square, high: Square, m: Square)
    requires low < high
    ensures m in Meet(low, high) <==> InBetween(low, m, high)
  {
    hide Walk, InBetween;
    assert Rank(low) < Rank(high) || (Rank(low) == Rank(high) && File(low) < File(high));
    Aligned(low, m, high);
    if File(high) == File(low) {
      OppositeRays(low, high, 0, 1, m);
    } else if Rank(high) == Rank(low) {
      OppositeRays(low, high, 1, 0, m);
    } else if File(high) - File(low) == Rank(high) - Rank(low) {
      OppositeRays(low, high, 1, 1, m);
    } else if File(low) - File(high) == Rank(high) - Rank(low) {
      OppositeRays(low, high, -1, 1, m);
    }
  }

  lemma InterveningMeaning(from: Square, to: Square, m: Square)
    ensures m in Intervening(from, to) <==> InBetween(from, m, to)
  {
    if from > to {
      MeetMeaning(to, from, m);
    } else if from < to {
      MeetMeaning(from, to, m);
    }
  }

  lemma FullRayMeaning(from: Square, to: Square, m: Square)
    ensures m in FullRay(from, to) <==>
      from != to &&
      ((File(from) == File(to) && File(m) == File(from)) || (Rank(from) == Rank(to) && Rank(m) == Rank(from)) ||
       (PlusLine(from, to) && Rank(m) - File(m) == Rank(from) - File(from)) ||
       (MinusLine(from, to) && Rank(m) + File(m) == Rank(from) + File(from)))
  {
  }

  /** What a piece of a given kind and colour standing on `s` attacks, seen from the piece. */
  predicate Attacks(p: Piece, s: Square, t: Square, occ: Bitboard) {
    var df, dr := File(t) - File(s), Rank(t) - Rank(s);
    if p.kind == PAWN then Abs(df) == 1 && dr == (if p.color == WHITE then 1 else -1)
    else if p.kind == KNIGHT then (Abs(df) == 1 && Abs(dr) == 2) || (Abs(df) == 2 && Abs(dr) == 1)
    else if p.kind == KING then s != t && Abs(df) <= 1 && Abs(dr) <= 1
    else Slides(p.kind, s, t) && Clear(s, t, occ)
  }

  predicate Slides(k: PieceType, s: Square, t: Square) {
    (k == ROOK && RookLine(s, t)) || (k == BISHOP && BishopLine(s, t)) ||
    (k == QUEEN && (RookLine(s, t) || BishopLine(s, t)))
  }

  lemma ClearSymmetric(a: Square, b: Square, occ: Bitboard)
    ensures Clear(a, b, occ) <==> Clear(b, a, occ)
  {
    forall m: Square ensures InBetween(a, m, b) <==> InBetween(b, m, a) {
    }
  }

  lemma SlidesMeaning(k: PieceType, s: Square, t: Square, occ: Bitboard)
    requires k == BISHOP || k == ROOK || k == QUEEN
    ensures t in NonPawnAttacks(k, s, occ) <==> Slides(k, s, t) && Clear(s, t, occ)
  {
    RookAttacksMeaning(s, occ, t);
    BishopAttacksMeaning(s, occ, t);
  }

  lemma StepsMeaning(k: PieceType, c: Color, s: Square, t: Square, occ: Bitboard)
    requires k == KNIGHT || k == KING
    ensures t in NonPawnAttacks(k, s, occ) <==> Attacks(Piece(k, c), s, t, occ)
  {
    if k == KNIGHT {
      KnightAttacksMeaning(s, t);
    } else {
      KingAttacksMeaning(s, t);
    }
  }

  lemma AttacksSymmetric(p: Piece, s: Square, t: Square, occ: Bitboard)
    requires p.kind != PAWN
    ensures Attacks(p, s, t, occ) <==> Attacks(p, t, s, occ)
  {
    hide Clear;
    ClearSymmetric(s, t, occ);
  }

  /** The square-centred lookups agree with the piece-centred rules. */
  lemma NonPawnAttacksMeaning(p: Piece, s: Square, t: Square, occ: Bitboard)
    requires p.kind != PAWN
    ensures s in NonPawnAttacks(p.kind, t, occ) <==> Attacks(p, s, t, occ)
    ensures t in NonPawnAttacks(p.kind, s, occ) <==> Attacks(p, s, t, occ)
  {
    AttacksSymmetric(p, s, t, occ);
    if p.kind == KNIGHT || p.kind == KING {
      StepsMeaning(p.kind, p.color, s, t, occ);
      StepsMeaning(p.kind, p.color, t, s, occ);
    } else {
      SlidesMeaning(p.kind, s, t, occ);
      SlidesMeaning(p.kind, t, s, occ);
    }
  }
}
