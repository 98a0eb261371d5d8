/** Repetition detection: the engine compares keys only inside a window of `halfmoves` plies and
    only every second ply. A measure that irreversible moves lower shows the window misses
    nothing. */
module Repetition {
  import opened Types
  import opened Folds
  import opened Lookups
  import opened Rules
  import opened Legality
  import opened Runs

  // ---- the measure ----

  /** A pawn weighs more the further it has to go; a promoted pawn weighs less than any pawn. */
  function Weight(s: Square, p: Piece): int {
    if p.kind == PAWN then 9 - RelativeRank(Rank(s), p.color) else 1
  }

  function WeightOf(): (Square, Piece) -> int {
    (s: Square, p: Piece) => Weight(s, p)
  }

  function Potential(cells: Cells): int {
    Total(WeightOf(), cells)
  }

  /** The moves that reset the half-move counter. */
  predicate Irreversible(cells: Cells, m: Move)
    requires m.from in cells
  {
    cells[m.from].kind == PAWN || m.to in cells
  }

  lemma RelocateWeight(cells: Cells, from: Square, to: Square)
    requires from in cells && to !in cells && from != to
    ensures Potential(Relocate(cells, from, to)) == Potential(cells) - Weight(from, cells[from]) + Weight(to, cells[from])
  {
    TotalRemove(WeightOf(), cells, from);
    TotalPut(WeightOf(), Remove(cells, from), to, cells[from]);
  }

  lemma WeightBounds(s: Square, p: Piece)
    ensures 1 <= Weight(s, p) && (p.kind == PAWN ==> 2 <= Weight(s, p))
  {
  }

  lemma PawnAdvances(cells: Cells, c: Color, rights: bv4, ep: Option<Square>, m: Move)
    requires PseudoLegal(cells, c, rights, ep, m) && Holds(cells, m.from, PAWN, c) && m.kind != Castling
    ensures Weight(m.to, Piece(PAWN, c)) < Weight(m.from, Piece(PAWN, c))
  {
  }

  /** No move raises the measure; an irreversible one lowers it. */
  lemma PotentialStep(p: Pos, m: Move)
    requires p.history != [] && PseudoLegal(p.cells, p.stm, p.Top().rights, p.Top().ep, m) && WellTyped(p.cells, p.stm, m)
    ensures
      var before, after := Potential(p.cells), Potential(NextCells(p.cells, p.stm, m));
      after <= before && (Irreversible(p.cells, m) ==> after < before)
  {
    var cells, f := p.cells, WeightOf();
    if Holds(cells, m.from, PAWN, p.stm) && m.kind != Castling {
      PawnAdvances(cells, p.stm, p.Top().rights, p.Top().ep, m);
    }
    hide PseudoLegal, Rank, Weight;
    WeightBounds(m.from, cells[m.from]);
    if m.to in cells {
      WeightBounds(m.to, cells[m.to]);
    }
    match m.kind {
      case Capture =>
        TotalRemove(f, cells, m.to);
        RelocateWeight(Remove(cells, m.to), m.from, m.to);
        WeightOfPiece(m.from, m.to, cells[m.from]);
      case CapturePromotion =>
        TotalRemove(f, cells, m.to);
        TotalRemove(f, Remove(cells, m.to), m.from);
        TotalPut(f, Remove(Remove(cells, m.to), m.from), m.to, Piece(m.promotion, p.stm));
        WeightOfPiece(m.from, m.to, Piece(m.promotion, p.stm));
      case Promotion =>
        TotalRemove(f, cells, m.from);
        TotalPut(f, Remove(cells, m.from), m.to, Piece(m.promotion, p.stm));
        WeightOfPiece(m.from, m.to, Piece(m.promotion, p.stm));
      case EnPassant =>
        RelocateWeight(cells, m.from, m.to);
        TotalRemove(f, Relocate(cells, m.from, m.to), Behind(m.to, p.stm));
        WeightBounds(Behind(m.to, p.stm), Piece(PAWN, Other(p.stm)));
      case Castling =>
        RelocateWeight(cells, m.from, m.to);
        RelocateWeight(Relocate(cells, m.from, m.to), RookFrom(m.to), RookTo(m.to));
        WeightOfPiece(m.from, m.to, cells[m.from]);
        WeightOfPiece(RookFrom(m.to), RookTo(m.to), Piece(ROOK, p.stm));
      case Normal =>
        RelocateWeight(cells, m.from, m.to);
        WeightOfPiece(m.from, m.to, cells[m.from]);
      case DoublePush =>
        RelocateWeight(cells, m.from, m.to);
      case Untyped =>
    }
  }

  lemma WeightOfPiece(s: Square, t: Square, p: Piece)
    ensures p.kind != PAWN ==> Weight(s, p) == Weight(t, p) == 1
  {
  }

  // ---- the window ----

  lemma MakeLowers(z: Randoms, p: Pos, m: Move)
    requires Sound(p) && Legal(p, m) && WellTyped(p.cells, p.stm, m)
    ensures
      var q := Make(z, p, m);
      Potential(q.cells) <= Potential(p.cells) &&
      (q.Top().halfmoves == p.Top().halfmoves + 1 || (q.Top().halfmoves == 0 && Potential(q.cells) < Potential(p.cells)))
  {
    LegalIsPlayable(p, m);
    PotentialStep(p, m);
    hide Potential, PseudoLegal, WellTyped, NextCells, Legal, Sound, NextHash, MoveTypeOf, Spoiler;
  }

  lemma StepLowers(z: Randoms, p: Pos, q: Pos)
    requires Step(z, p, q) && Sound(p)
    ensures p.history != [] && q.history != [] && Potential(q.cells) <= Potential(p.cells)
    ensures q.Top().halfmoves == p.Top().halfmoves + 1 || (q.Top().halfmoves == 0 && Potential(q.cells) < Potential(p.cells))
    ensures q.stm == Other(p.stm)
  {
    if !NullStep(z, p, q) {
      var m :| MoveStep(z, p, m, q);
      MakeLowers(z, p, m);
      hide Potential, PseudoLegal, WellTyped, NextCells, Legal, Sound, NextHash, MoveTypeOf, Spoiler;
    }
  }

  /** A line as a game played from a freshly read position: one record, counter not negative. */
  ghost predicate Game(z: Randoms, line: seq<Pos>) {
    Line(z, line) && |line[0].history| == 1 && line[0].Top().halfmoves >= 0
  }

  /** Index `i` of the line is ply `i` of the history of its end. */
  lemma {:induction false} HistoryIsLine(z: Randoms, line: seq<Pos>, i: nat)
    requires Game(z, line) && i < |line|
    ensures
      var end := line[|line| - 1];
      |end.history| == |line| && line[i].history != [] && end.history[i] == line[i].Top()
    ensures line[i].Top().halfmoves >= 0
    ensures (|line| - 1 - i) % 2 == 1 ==> line[i].stm != line[|line| - 1].stm
    ensures (|line| - 1 - i) % 2 == 0 ==> line[i].stm == line[|line| - 1].stm
  {
    hide Potential, Sound, HashOk, Step, Unmake, CanUnmake;
    var last := |line| - 1;
    if last > 0 {
      LineIsSound(z, line, last - 1);
      LineIsSound(z, line, last);
      assert Step(z, line[last - 1], line[last]);
      StepKeepsSound(z, line[last - 1], line[last]);
      StepLowers(z, line[last - 1], line[last]);
      var shorter := line[..last];
      if i < last {
        HistoryIsLine(z, shorter, i);
        assert line[last].history[i] == line[last].history[..last][i];
      } else {
        HistoryIsLine(z, shorter, last - 1);
      }
    }
  }

  /** Positions older than the last irreversible move hold different pieces or pawns. */
  lemma {:induction false} BeyondWindowDiffers(z: Randoms, line: seq<Pos>, i: nat)
    requires Game(z, line) && i < |line| - 1
    ensures line[|line| - 1].history != [] && Potential(line[i].cells) >= Potential(line[|line| - 1].cells)
    ensures i < |line| - 1 - line[|line| - 1].Top().halfmoves ==> Potential(line[i].cells) > Potential(line[|line| - 1].cells)
  {
    hide Potential, Sound, HashOk, Step;
    var last := |line| - 1;
    LineIsSound(z, line, last - 1);
    assert Step(z, line[last - 1], line[last]);
    StepLowers(z, line[last - 1], line[last]);
    HistoryIsLine(z, line, last - 1);
    if i < last - 1 {
      BeyondWindowDiffers(z, line[..last], i);
    }
  }

  // ---- equal positions and equal keys ----

  /** The part of an en-passant square that counts: its file, when a pawn can capture there. */
  function UsableEp(p: Pos): Option<int>
    requires p.history != []
  {
    var ep := p.Top().ep;
    if ep.Some? && EpCandidates(p.cells, p.stm, ep.value) != {} then Some(File(ep.value)) else None
  }

  predicate SamePosition(p: Pos, q: Pos) {
    && p.history != [] && q.history != []
    && p.cells == q.cells && p.stm == q.stm && p.Top().rights == q.Top().rights && UsableEp(p) == UsableEp(q)
  }

  lemma SameKey(z: Randoms, p: Pos, q: Pos)
    requires SamePosition(p, q) && HashOk(z, p) && HashOk(z, q)
    ensures p.Top().hash == q.Top().hash
  {
  }

  // ---- counting ----

  /** Marks seen walking down from `i` two at a time, not below `floor`. */
  function CountDown(marks: seq<bool>, i: int, floor: nat): nat
    requires i < |marks|
    decreases i + 2
  {
    if i < floor then 0 else (if marks[i] then 1 else 0) + CountDown(marks, i - 2, floor)
  }

  function CountAll(marks: seq<bool>): nat {
    if marks == [] then 0 else (if marks[|marks| - 1] then 1 else 0) + CountAll(marks[..|marks| - 1])
  }

  /** `num_keys` of the scan. */
  function Floor(history: seq<State>): nat
    requires history != []
  {
    Max(0, |history| - 1 - history[|history| - 1].halfmoves)
  }

  function HashMarks(history: seq<State>): (marks: seq<bool>)
    requires history != []
    ensures |marks| == |history| - 1
  {
    seq(|history| - 1, i requires 0 <= i < |history| - 1 => history[i].hash == history[|history| - 1].hash)
  }

  /** `repeat_count`. */
  function RepeatCount(history: seq<State>): nat
    requires history != []
  {
    CountDown(HashMarks(history), |history| - 3, Floor(history))
  }

  function PositionMarks(line: seq<Pos>): (marks: seq<bool>)
    requires line != []
    ensures |marks| == |line| - 1
  {
    seq(|line| - 1, i requires 0 <= i < |line| - 1 => SamePosition(line[i], line[|line| - 1]))
  }

  lemma {:induction false} CountDownOnly(marks: seq<bool>, more: seq<bool>, i: int, floor: nat)
    requires i < |marks| <= |more| && (forall k :: floor <= k <= i && (i - k) % 2 == 0 ==> marks[k] == more[k])
    ensures CountDown(marks, i, floor) == CountDown(more, i, floor)
    decreases i + 2
  {
    if i >= floor {
      CountDownOnly(marks, more, i - 2, floor);
    }
  }

  lemma {:induction false} NoMarks(marks: seq<bool>)
    requires forall k :: 0 <= k < |marks| ==> !marks[k]
    ensures CountAll(marks) == 0
  {
    if marks != [] {
      NoMarks(marks[..|marks| - 1]);
    }
  }

  /** If no mark lies below the floor or at odd distance, the window count is the full count. */
  lemma {:induction false} WindowCountsAll(marks: seq<bool>, floor: nat)
    requires forall k :: 0 <= k < |marks| && (k < floor || (|marks| - k) % 2 == 1) ==> !marks[k]
    ensures CountDown(marks, |marks| - 2, floor) == CountAll(marks)
  {
    var n := |marks|;
    if n == 0 {
    } else if n == 1 {
      NoMarks(marks);
    } else {
      var two := marks[..n - 2];
      assert !marks[n - 1] && marks[..n - 1][..n - 2] == two;
      assert CountAll(marks) == CountAll(marks[..n - 1]) == (if marks[n - 2] then 1 else 0) + CountAll(two);
      WindowCountsAll(two, floor);
      if n - 2 >= floor {
        CountDownOnly(two, marks, n - 4, floor);
      } else {
        NoMarks(marks);
      }
    }
  }

  lemma MarksInWindow(z: Randoms, line: seq<Pos>, k: nat)
    requires Game(z, line) && k < |line| - 1
    requires line[|line| - 1].history != [] && (k < Floor(line[|line| - 1].history) || (|line| - 1 - k) % 2 == 1)
    ensures !PositionMarks(line)[k]
  {
    HistoryIsLine(z, line, k);
    HistoryIsLine(z, line, |line| - 1);
    BeyondWindowDiffers(z, line, k);
  }

  /** Looking only inside the window at every second ply finds every earlier equal position. */
  lemma {:induction false} WindowMissesNothing(z: Randoms, line: seq<Pos>)
    requires Game(z, line)
    ensures line[|line| - 1].history != []
    ensures CountDown(PositionMarks(line), |line| - 3, Floor(line[|line| - 1].history)) == CountAll(PositionMarks(line))
  {
    assert line != [];
    HistoryIsLine(z, line, |line| - 1);
    hide Game, SamePosition, Line, CountAll, CountDown, Floor, PositionMarks;
    var marks := PositionMarks(line);
    forall k | 0 <= k < |marks| && (k < Floor(line[|line| - 1].history) || (|marks| - k) % 2 == 1) ensures !marks[k] {
      MarksInWindow(z, line, k);
    }
    WindowCountsAll(marks, Floor(line[|line| - 1].history));
  }

  lemma {:induction false} CountDownMono(marks: seq<bool>, more: seq<bool>, i: int, floor: nat)
    requires i < |marks| == |more| && (forall k :: 0 <= k < |marks| && marks[k] ==> more[k])
    ensures CountDown(marks, i, floor) <= CountDown(more, i, floor)
    decreases i + 2
  {
    if i >= floor {
      CountDownMono(marks, more, i - 2, floor);
    }
  }

  lemma EqualPositionsHaveEqualKeys(z: Randoms, line: seq<Pos>, k: nat)
    requires Game(z, line) && k < |line| - 1 && SamePosition(line[k], line[|line| - 1])
    ensures |line[|line| - 1].history| == |line|
    ensures HashMarks(line[|line| - 1].history)[k]
  {
    hide Sound;
    LineIsSound(z, line, k);
    LineIsSound(z, line, |line| - 1);
    HistoryIsLine(z, line, k);
    HistoryIsLine(z, line, |line| - 1);
    SameKey(z, line[k], line[|line| - 1]);
  }

  /** `repeat_count` never misses an earlier occurrence of the current position. */
  lemma RepeatCountCovers(z: Randoms, line: seq<Pos>)
    requires Game(z, line)
    ensures |line[|line| - 1].history| == |line|
    ensures RepeatCount(line[|line| - 1].history) >= CountAll(PositionMarks(line))
  {
    assert line != [];
    hide SamePosition, Line, CountAll, CountDown;
    var end := line[|line| - 1];
    HistoryIsLine(z, line, |line| - 1);
    var keys, marks := HashMarks(end.history), PositionMarks(line);
    forall k | 0 <= k < |line| - 1 && marks[k] ensures keys[k] {
      EqualPositionsHaveEqualKeys(z, line, k);
    }
    WindowMissesNothing(z, line);
    CountDownMono(marks, keys, |line| - 3, Floor(end.history));
  }

  /** Equal keys on the line come only from equal positions. */
  ghost predicate NoCollision(line: seq<Pos>)
    requires line != []
  {
    var end := line[|line| - 1];
    |end.history| == |line| && forall k :: 0 <= k < |line| - 1 && HashMarks(end.history)[k] ==> SamePosition(line[k], end)
  }

  /** Without key collisions `repeat_count` is exactly the number of earlier occurrences of the
      current position in the whole game. */
  lemma RepeatCountExact(z: Randoms, line: seq<Pos>)
    requires Game(z, line) && NoCollision(line)
    ensures RepeatCount(line[|line| - 1].history) == CountAll(PositionMarks(line))
  {
    assert line != [];
    hide SamePosition, Line, CountAll, CountDown;
    var end := line[|line| - 1];
    RepeatCountCovers(z, line);
    WindowMissesNothing(z, line);
    CountDownMono(HashMarks(end.history), PositionMarks(line), |line| - 3, Floor(end.history));
  }
}
