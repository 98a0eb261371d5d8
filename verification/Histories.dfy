/** Move-ordering statistics: four tables updated with bounded "gravity", and the score that orders
    moves by them. */
module Histories {
  import opened Types
  import opened Arithmetic
  import opened Rules
  import opened Positions

  const MAX_HISTORY: int := 1023

  /** Division truncating towards zero. */
  function TruncDiv(x: int, d: int): int
    requires d > 0
  {
    if x >= 0 then x / d else -((-x) / d)
  }

  function Clamp(x: int, lo: int, hi: int): int {
    if x < lo then lo else if x > hi then hi else x
  }

  /** One gravity step: pull the value towards the sign of the bonus, the less the closer it is. */
  function Bumped(h: int, bonus: int): int {
    var clamped := Clamp(bonus, -MAX_HISTORY, MAX_HISTORY);
    h + (clamped - TruncDiv(h * Abs(clamped), MAX_HISTORY))
  }

  predicate InRange(h: int) {
    -MAX_HISTORY <= h <= MAX_HISTORY
  }

  lemma ProductBound(h: int, c: int)
    requires InRange(h) && 0 <= c <= MAX_HISTORY
    ensures -MAX_HISTORY * c <= h * c <= MAX_HISTORY * c
  {
    MulMono(h, MAX_HISTORY, c);
    MulMono(-MAX_HISTORY, h, c);
  }

  /** How far the quotient is from the bonus, for each sign of the value. */
  lemma TruncBounds(x: int, c: int)
    requires -MAX_HISTORY * c <= x <= MAX_HISTORY * c && c >= 0
    ensures -c <= TruncDiv(x, MAX_HISTORY) <= c
    ensures x >= 0 ==> MAX_HISTORY * TruncDiv(x, MAX_HISTORY) <= x < MAX_HISTORY * (TruncDiv(x, MAX_HISTORY) + 1)
    ensures x < 0 ==> MAX_HISTORY * (TruncDiv(x, MAX_HISTORY) - 1) < x <= MAX_HISTORY * TruncDiv(x, MAX_HISTORY)
  {
  }

  /** Truncation included, a step never leaves the range and never moves against its bonus. */
  lemma GravityHolds(h: int, bonus: int)
    requires InRange(h)
    ensures InRange(Bumped(h, bonus))
    ensures bonus >= 0 ==> Bumped(h, bonus) >= h
    ensures bonus <= 0 ==> Bumped(h, bonus) <= h
    ensures bonus >= MAX_HISTORY ==> Bumped(h, bonus) == MAX_HISTORY
    ensures bonus <= -MAX_HISTORY ==> Bumped(h, bonus) == -MAX_HISTORY
  {
    var clamped := Clamp(bonus, -MAX_HISTORY, MAX_HISTORY);
    var c := Abs(clamped);
    ProductBound(h, c);
    TruncBounds(h * c, c);
    var q := TruncDiv(h * c, MAX_HISTORY);
    Shrinks(h, c, q);
    hide TruncDiv;
  }

  /** A bonus that is not zero moves every value that is not already at that end. */
  lemma GravityMoves(h: int, bonus: int)
    requires InRange(h)
    ensures bonus > 0 && h < MAX_HISTORY ==> Bumped(h, bonus) > h
    ensures bonus < 0 && h > -MAX_HISTORY ==> Bumped(h, bonus) < h
  {
    var clamped := Clamp(bonus, -MAX_HISTORY, MAX_HISTORY);
    var c := Abs(clamped);
    if 0 < bonus && h < MAX_HISTORY {
      QuotientBelow(h, c);
    }
    if bonus < 0 && -h < MAX_HISTORY {
      QuotientBelow(-h, c);
      Negated(h, c);
    }
    hide TruncDiv;
  }

  lemma QuotientBelow(h: int, c: int)
    requires h < MAX_HISTORY && 0 < c
    ensures TruncDiv(h * c, MAX_HISTORY) < c
  {
    MulMono(h, MAX_HISTORY - 1, c);
  }

  lemma Negated(h: int, c: int)
    ensures TruncDiv(-h * c, MAX_HISTORY) == -TruncDiv(h * c, MAX_HISTORY)
  {
    assert -h * c == -(h * c);
  }

  /** `h + c - q` stays below the bound, and `h - c - q` above it. */
  lemma Shrinks(h: int, c: int, q: int)
    requires InRange(h) && 0 <= c <= MAX_HISTORY && q == TruncDiv(h * c, MAX_HISTORY)
    ensures h + c - q <= MAX_HISTORY && h - c - q >= -MAX_HISTORY
    ensures c == MAX_HISTORY ==> q == h
  {
    var x := h * c;
    ProductBound(h, c);
    TruncBounds(x, c);
    MulMono(h, MAX_HISTORY, MAX_HISTORY - c);
    MulMono(-MAX_HISTORY, h, MAX_HISTORY - c);
    Distribute(h, c);
    Nearest(x, q, h + c - MAX_HISTORY, h - c + MAX_HISTORY);
    hide TruncDiv;
  }

  lemma Distribute(h: int, c: int)
    ensures h * (MAX_HISTORY - c) == MAX_HISTORY * h - h * c
  {
  }

  /** An integer bound on the scaled value bounds its truncated quotient. */
  lemma Nearest(x: int, q: int, lo: int, hi: int)
    requires q == TruncDiv(x, MAX_HISTORY) && MAX_HISTORY * lo <= x <= MAX_HISTORY * hi
    ensures lo <= q <= hi
  {
  }

  // ---- tables ----

  predicate AllInRange(t: seq<int>) {
    forall i :: 0 <= i < |t| ==> InRange(t[i])
  }

  /** `update_history` and its three twins: the sum fits sixteen bits. */
  method Update(table: array<int>, index: int, bonus: int)
    requires 0 <= index < table.Length && AllInRange(table[..])
    modifies table
    ensures table[..] == old(table[..])[index := Bumped(old(table[index]), bonus)]
    ensures AllInRange(table[..])
  {
    GravityHolds(table[index], bonus);
    var clamped := Clamp(bonus, -MAX_HISTORY, MAX_HISTORY);
    var delta := clamped - TruncDiv(table[index] * Abs(clamped), MAX_HISTORY);
    hide TruncDiv;
    assert -32768 <= table[index] + delta <= 32767;
    table[index] := table[index] + delta;
  }

  /** A table after a run of updates, first to last. */
  function Learned(t: seq<int>, updates: seq<(int, int)>): (r: seq<int>)
    ensures |r| == |t|
  {
    if updates == [] then t
    else
      var r := Learned(t, updates[..|updates| - 1]);
      var u := updates[|updates| - 1];
      if 0 <= u.0 < |r| then r[u.0 := Bumped(r[u.0], u.1)] else r
  }

  /** From zeroed tables, no run of updates with any bonuses ever leaves the range. */
  lemma {:induction false} LearnedInRange(n: nat, updates: seq<(int, int)>)
    ensures AllInRange(Learned(seq(n, _ => 0), updates))
  {
    if updates != [] {
      LearnedInRange(n, updates[..|updates| - 1]);
      var r, u := Learned(seq(n, _ => 0), updates[..|updates| - 1]), updates[|updates| - 1];
      if 0 <= u.0 < |r| {
        GravityHolds(r[u.0], u.1);
      }
      hide Bumped;
    }
  }

  // ---- indices ----

  function HistoryIndex(side: Color, k: PieceType, to: Square): int {
    side * 6 * 64 + k * 64 + to
  }

  function CaptureIndex(side: Color, k: PieceType, to: Square, captured: PieceType): int {
    (side * 6 + k) * 64 * 6 + to * 6 + captured
  }

  function ButterflyIndex(side: Color, from: Square, to: Square): int {
    side * 64 * 64 + from * 64 + to
  }

  function ContIndex(previousTo: Square, to: Square): int {
    previousTo * 64 + to
  }

  const HISTORY_SIZE: int := 768
  const CAPTURE_SIZE: int := 4608
  const BUTTERFLY_SIZE: int := 8192
  const CONT_SIZE: int := 4096

  /** Every index is inside its table, so the range guards never skip an update, and different
      keys never share a cell. */
  lemma IndicesExact(side: Color, k: PieceType, from: Square, to: Square, x: PieceType,
                     side': Color, k': PieceType, from': Square, to': Square, x': PieceType)
    ensures 0 <= HistoryIndex(side, k, to) < HISTORY_SIZE && 0 <= CaptureIndex(side, k, to, x) < CAPTURE_SIZE
    ensures 0 <= ButterflyIndex(side, from, to) < BUTTERFLY_SIZE && 0 <= ContIndex(from, to) < CONT_SIZE
    ensures HistoryIndex(side, k, to) == HistoryIndex(side', k', to') ==> (side, k, to) == (side', k', to')
    ensures CaptureIndex(side, k, to, x) == CaptureIndex(side', k', to', x') ==> (side, k, to, x) == (side', k', to', x')
    ensures ButterflyIndex(side, from, to) == ButterflyIndex(side', from', to') ==> (side, from, to) == (side', from', to')
    ensures ContIndex(from, to) == ContIndex(from', to') ==> (from, to) == (from', to')
  {
  }

  // ---- ordering ----

  const INT_MAX: int := 0x7FFF_FFFF

  /** What a table holds; one that could not be allocated counts as zeros. */
  ghost function Contents(t: array?<int>, size: nat): (r: seq<int>)
    reads t
  {
    if t == null then seq(size, _ => 0) else t[..]
  }

  /** The four tables of one searcher; three of them may be missing. */
  class Tables {
    const history: array<int>
    const capture: array?<int>
    const butterfly: array?<int>
    const cont: array?<int>

    ghost predicate Ready()
      reads history, capture, butterfly, cont
    {
      && history.Length == HISTORY_SIZE && (capture == null || capture.Length == CAPTURE_SIZE)
      && (butterfly == null || butterfly.Length == BUTTERFLY_SIZE) && (cont == null || cont.Length == CONT_SIZE)
      && AllInRange(history[..]) && AllInRange(Contents(capture, CAPTURE_SIZE))
      && AllInRange(Contents(butterfly, BUTTERFLY_SIZE)) && AllInRange(Contents(cont, CONT_SIZE))
    }

    constructor (history: array<int>, capture: array?<int>, butterfly: array?<int>, cont: array?<int>)
      requires history.Length == HISTORY_SIZE && (capture == null || capture.Length == CAPTURE_SIZE)
      requires (butterfly == null || butterfly.Length == BUTTERFLY_SIZE) && (cont == null || cont.Length == CONT_SIZE)
      requires AllInRange(history[..]) && AllInRange(Contents(capture, CAPTURE_SIZE))
      requires AllInRange(Contents(butterfly, BUTTERFLY_SIZE)) && AllInRange(Contents(cont, CONT_SIZE))
      ensures Ready()
    {
      this.history, this.capture, this.butterfly, this.cont := history, capture, butterfly, cont;
    }
  }

  predicate IsPromotion(m: Move) {
    m.kind == Promotion || m.kind == CapturePromotion
  }

  /** Equality of encoded moves, the type bits aside. */
  predicate SameMove(a: Move, b: Move) {
    a.from == b.from && a.to == b.to && a.promotion == b.promotion
  }

  function Victim(cells: Cells, m: Move): PieceType {
    if m.kind != EnPassant && m.to in cells then cells[m.to].kind else PAWN
  }

  /** Worth of a capture that does not promote: victim first, then the cheaper attacker, then what
      was learned. */
  function CaptureScore(victim: PieceType, attacker: PieceType, learned: int): int {
    victim * 0x8_0000 + (if attacker != KING then (QUEEN - attacker) * 256 else 0) + learned * 16
  }

  /** Where the learned value of a capture lives. */
  function CaptureCell(cells: Cells, stm: Color, m: Move): int
    requires m.from in cells
  {
    CaptureIndex(stm, cells[m.from].kind, m.to, Victim(cells, m))
  }

  /** The score of a move that is not pinned first, over the contents of the four tables. */
  function Score(cells: Cells, stm: Color, previous: Option<Move>, h: seq<int>, x: seq<int>, b: seq<int>, c: seq<int>, m: Move): int
    requires |h| == HISTORY_SIZE && |x| == CAPTURE_SIZE && |b| == BUTTERFLY_SIZE && |c| == CONT_SIZE
  {
    if m.from !in cells then 0
    else
      var from := cells[m.from].kind;
      IndicesExact(stm, from, m.from, m.to, Victim(cells, m), stm, from, m.from, m.to, PAWN);
      (if IsPromotion(m) then m.promotion * 0x8_0000 else 0) +
      if IsCapture(m) then CaptureScore(Victim(cells, m), from, x[CaptureCell(cells, stm, m)])
      else
        h[HistoryIndex(stm, from, m.to)] + b[ButterflyIndex(stm, m.from, m.to)] +
        if previous.Some? then
          IndicesExact(stm, from, previous.value.to, m.to, PAWN, stm, from, m.from, m.to, PAWN);
          c[ContIndex(previous.value.to, m.to)]
        else 0
  }

  /** `move_evaluater`; a missing table scores like one of zeros. */
  method MoveEvaluater(pos: Position, t: Tables, first: seq<Move>, m: Move) returns (score: int)
    requires pos.Valid() && t.Ready() && |first| <= 2
    requires IsPromotion(m) ==> m.PromotionType().Some?
    ensures forall i :: 0 <= i < |first| && SameMove(m, first[i]) && (forall j :: 0 <= j < i ==> !SameMove(m, first[j])) ==> score == INT_MAX - i
    ensures (forall i :: 0 <= i < |first| ==> !SameMove(m, first[i])) ==>
      score == Score(pos.cells, pos.stm, pos.View().Top().previous, t.history[..], Contents(t.capture, CAPTURE_SIZE),
                     Contents(t.butterfly, BUTTERFLY_SIZE), Contents(t.cont, CONT_SIZE), m)
  {
    for i := 0 to |first|
      invariant forall j :: 0 <= j < i ==> !SameMove(m, first[j])
    {
      if SameMove(m, first[i]) {
        return INT_MAX - i;
      }
    }
    var from := pos.PieceTypeOn(m.from);
    if from.None? {
      return 0;
    }
    score := 0;
    if IsPromotion(m) {
      score := score + m.PromotionType().value * 0x8_0000;
    }
    if IsCapture(m) {
      var gain := CaptureTerms(pos, t, m, from.value);
      score := score + gain;
    } else {
      var learned := QuietTerms(pos, t, m, from.value);
      score := score + learned;
    }
  }

  /** A guarded read of a table that may be missing. */
  method LearnedAt(t: array?<int>, size: nat, index: int) returns (learned: int)
    requires 0 <= index < size && (t == null || t.Length == size)
    ensures learned == Contents(t, size)[index]
  {
    learned := if t == null then 0 else t[index];
  }

  method CaptureTerms(pos: Position, t: Tables, m: Move, from: PieceType) returns (score: int)
    requires pos.Valid() && t.Ready() && m.from in pos.cells && from == pos.cells[m.from].kind
    ensures 0 <= CaptureCell(pos.cells, pos.stm, m) < CAPTURE_SIZE
    ensures score == CaptureScore(Victim(pos.cells, m), from, Contents(t.capture, CAPTURE_SIZE)[CaptureCell(pos.cells, pos.stm, m)])
  {
    var captured: PieceType := PAWN;
    if m.kind != EnPassant {
      var there := pos.PieceTypeOn(m.to);
      if there.Some? {
        captured := there.value;
      }
    }
    score := (captured as int) * 0x8_0000;
    if from != KING {
      score := score + (QUEEN - from) * 256;
    }
    IndicesExact(pos.stm, from, m.from, m.to, captured, pos.stm, from, m.from, m.to, captured);
    hide CaptureIndex;
    var idx := CaptureIndex(pos.stm, from, m.to, captured);
    var learned := LearnedAt(t.capture, CAPTURE_SIZE, idx);
    score := score + learned * 16;
  }

  method QuietTerms(pos: Position, t: Tables, m: Move, from: PieceType) returns (score: int)
    requires pos.Valid() && t.Ready() && m.from in pos.cells && from == pos.cells[m.from].kind && !IsCapture(m)
    ensures score + (if IsPromotion(m) then m.promotion * 0x8_0000 else 0) ==
      Score(pos.cells, pos.stm, pos.View().Top().previous, t.history[..], Contents(t.capture, CAPTURE_SIZE),
            Contents(t.butterfly, BUTTERFLY_SIZE), Contents(t.cont, CONT_SIZE), m)
  {
    hide AllInRange, OfKind, Side, FullHash, Contents;
    var previous := pos.history[pos.ply].previous;
    IndicesExact(pos.stm, from, m.from, m.to, PAWN, pos.stm, from, m.from, m.to, PAWN);
    hide HistoryIndex, ButterflyIndex, ContIndex;
    score := t.history[HistoryIndex(pos.stm, from, m.to)];
    var learned := LearnedAt(t.butterfly, BUTTERFLY_SIZE, ButterflyIndex(pos.stm, m.from, m.to));
    score := score + learned;
    if previous.Some? {
      var to := previous.value.to;
      IndicesExact(pos.stm, from, to, m.to, PAWN, pos.stm, from, to, m.to, PAWN);
      learned := LearnedAt(t.cont, CONT_SIZE, ContIndex(to, m.to));
      score := score + learned;
    }
  }

  /** Whatever the tables hold: nothing outranks a pinned-first move, a plain capture of a more
      valuable piece type outranks one of a less valuable type, and a plain capture of more than a
      pawn outranks every quiet move. */
  lemma OrderingIsStable(cells: Cells, stm: Color, previous: Option<Move>, h: seq<int>, x: seq<int>, b: seq<int>, c: seq<int>, m: Move, n: Move)
    requires |h| == HISTORY_SIZE && |x| == CAPTURE_SIZE && |b| == BUTTERFLY_SIZE && |c| == CONT_SIZE
    requires AllInRange(h) && AllInRange(x) && AllInRange(b) && AllInRange(c) && m.from in cells && n.from in cells
    ensures Score(cells, stm, previous, h, x, b, c, m) < INT_MAX - 2
    ensures IsCapture(m) && IsCapture(n) && !IsPromotion(m) && !IsPromotion(n) && Victim(cells, m) > Victim(cells, n) ==>
      Score(cells, stm, previous, h, x, b, c, m) > Score(cells, stm, previous, h, x, b, c, n)
    ensures IsCapture(m) && !IsPromotion(m) && Victim(cells, m) > PAWN && !IsCapture(n) && !IsPromotion(n) ==>
      Score(cells, stm, previous, h, x, b, c, m) > Score(cells, stm, previous, h, x, b, c, n)
  {
    forall k: Move | k.from in cells
      ensures 0 <= CaptureCell(cells, stm, k) < CAPTURE_SIZE && InRange(x[CaptureCell(cells, stm, k)])
    {
      IndicesExact(stm, cells[k.from].kind, k.from, k.to, Victim(cells, k), stm, PAWN, k.from, k.to, PAWN);
    }
    QuietBound(cells, stm, previous, h, x, b, c, m);
    QuietBound(cells, stm, previous, h, x, b, c, n);
    hide CaptureCell, HistoryIndex, ButterflyIndex, ContIndex, Victim, AllInRange;
  }

  /** The learned part: a quiet move adds the cells of its side, type and target, of its side and two
      squares, and of the last target and its own; a capture sixteen times that of its side, type,
      target and victim. */
  lemma LearnedParts(cells: Cells, stm: Color, previous: Option<Move>, h: seq<int>, x: seq<int>, b: seq<int>, c: seq<int>, m: Move)
    requires |h| == HISTORY_SIZE && |x| == CAPTURE_SIZE && |b| == BUTTERFLY_SIZE && |c| == CONT_SIZE && m.from in cells && !IsPromotion(m)
    ensures !IsCapture(m) ==>
      var k := cells[m.from].kind;
      && 0 <= stm * 384 + k * 64 + m.to < 768 && 0 <= stm * 4096 + m.from * 64 + m.to < 8192
      && Score(cells, stm, previous, h, x, b, c, m) ==
           h[stm * 384 + k * 64 + m.to] + b[stm * 4096 + m.from * 64 + m.to] + if previous.Some? then c[previous.value.to * 64 + m.to] else 0
    ensures IsCapture(m) ==>
      var k, v := cells[m.from].kind, Victim(cells, m);
      && 0 <= (stm * 6 + k) * 384 + m.to * 6 + v < 4608
      && Score(cells, stm, previous, h, x, b, c, m) ==
           v * 0x8_0000 + (if k == KING then 0 else (QUEEN - k) * 256) + 16 * x[(stm * 6 + k) * 384 + m.to * 6 + v]
  {
    hide Victim;
    IndicesExact(stm, cells[m.from].kind, m.from, m.to, Victim(cells, m), stm, PAWN, m.from, m.to, PAWN);
    IndicesExact(stm, cells[m.from].kind, if previous.Some? then previous.value.to else m.from, m.to, PAWN, stm, PAWN, m.from, m.to, PAWN);
  }

  /** Of two plain captures of the same type the cheaper attacker goes first, the king last, when as
      much was learned of both; and what was learned orders captures by the same piece. */
  lemma AttackersAreOrdered(cells: Cells, stm: Color, previous: Option<Move>, h: seq<int>, x: seq<int>, b: seq<int>, c: seq<int>, m: Move, n: Move)
    requires |h| == HISTORY_SIZE && |x| == CAPTURE_SIZE && |b| == BUTTERFLY_SIZE && |c| == CONT_SIZE && m.from in cells && n.from in cells
    requires IsCapture(m) && IsCapture(n) && !IsPromotion(m) && !IsPromotion(n) && Victim(cells, m) == Victim(cells, n)
    ensures 0 <= CaptureCell(cells, stm, m) < CAPTURE_SIZE && 0 <= CaptureCell(cells, stm, n) < CAPTURE_SIZE
    ensures x[CaptureCell(cells, stm, m)] == x[CaptureCell(cells, stm, n)] && cells[m.from].kind < cells[n.from].kind ==>
      Score(cells, stm, previous, h, x, b, c, m) >= Score(cells, stm, previous, h, x, b, c, n)
    ensures x[CaptureCell(cells, stm, m)] == x[CaptureCell(cells, stm, n)] && cells[m.from].kind < cells[n.from].kind && cells[m.from].kind != QUEEN ==>
      Score(cells, stm, previous, h, x, b, c, m) > Score(cells, stm, previous, h, x, b, c, n)
    ensures cells[m.from].kind == cells[n.from].kind ==>
      (x[CaptureCell(cells, stm, m)] < x[CaptureCell(cells, stm, n)] <==>
       Score(cells, stm, previous, h, x, b, c, m) < Score(cells, stm, previous, h, x, b, c, n))
  {
    IndicesExact(stm, cells[m.from].kind, m.from, m.to, Victim(cells, m), stm, cells[n.from].kind, n.from, n.to, Victim(cells, n));
    IndicesExact(stm, cells[n.from].kind, n.from, n.to, Victim(cells, n), stm, PAWN, m.from, m.to, PAWN);
    hide HistoryIndex, ButterflyIndex, ContIndex, CaptureIndex, Victim;
  }

  /** Whatever was learned, a promotion outranks every quiet move, and of two plain promotions the one
      to the dearer piece goes first. */
  lemma PromotionsAreOrdered(cells: Cells, stm: Color, previous: Option<Move>, h: seq<int>, x: seq<int>, b: seq<int>, c: seq<int>, m: Move, n: Move)
    requires |h| == HISTORY_SIZE && |x| == CAPTURE_SIZE && |b| == BUTTERFLY_SIZE && |c| == CONT_SIZE
    requires AllInRange(h) && AllInRange(b) && AllInRange(c) && m.from in cells && n.from in cells
    requires m.kind == Promotion && KNIGHT <= m.promotion <= QUEEN
    ensures !IsCapture(n) && !IsPromotion(n) ==> Score(cells, stm, previous, h, x, b, c, m) > Score(cells, stm, previous, h, x, b, c, n)
    ensures n.kind == Promotion && n.promotion < m.promotion ==>
      Score(cells, stm, previous, h, x, b, c, m) > Score(cells, stm, previous, h, x, b, c, n)
  {
    QuietBound(cells, stm, previous, h, x, b, c, m);
    QuietBound(cells, stm, previous, h, x, b, c, n);
    hide Score, AllInRange;
  }

  lemma QuietBound(cells: Cells, stm: Color, previous: Option<Move>, h: seq<int>, x: seq<int>, b: seq<int>, c: seq<int>, m: Move)
    requires |h| == HISTORY_SIZE && |x| == CAPTURE_SIZE && |b| == BUTTERFLY_SIZE && |c| == CONT_SIZE
    requires AllInRange(h) && AllInRange(b) && AllInRange(c) && m.from in cells
    ensures !IsCapture(m) ==>
      -3 * MAX_HISTORY <= Score(cells, stm, previous, h, x, b, c, m) - (if IsPromotion(m) then m.promotion * 0x8_0000 else 0) <= 3 * MAX_HISTORY
  {
  }
}
