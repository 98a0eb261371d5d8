/** The weight table: 768 feature rows of `h` values, paired by an in-place permutation, then
    clustered by square, and the row lookup that must still find the flat table's rows. */
module Weights {
  import opened Types
  import opened Arithmetic
  import opened Kernels
  import Lookups

  const PAIRS: int := 384
  const ROWS: int := 768

  /** `t ^ 56`: the square seen from the other side. */
  function Flip(t: int): int {
    if 0 <= t < 64 then 8 * (7 - t / 8) + t % 8 else t
  }

  /** Flat row of the other-view half of pair `j`. */
  function OtherHalf(j: int): int {
    var t := j % 64;
    PAIRS + j + Flip(t) - t
  }

  /** Flat row stored at row `r` of the paired table: even rows own view, odd rows other view. */
  function RowSource(r: int): int {
    if r % 2 != 0 then OtherHalf(r / 2) else r / 2
  }

  lemma FlipInvolutive(t: int)
    requires 0 <= t < 64
    ensures 0 <= Flip(t) < 64 && Flip(Flip(t)) == t
  {
  }

  lemma RowSourceRange(r: int)
    requires 0 <= r < ROWS
    ensures 0 <= RowSource(r) < ROWS && (RowSource(r) >= PAIRS <==> r % 2 == 1)
  {
    FlipInvolutive(r / 2 % 64);
  }

  lemma OtherHalfShape(j: int)
    requires 0 <= j < PAIRS
    ensures OtherHalf(j) == PAIRS + 64 * (j / 64) + Flip(j % 64) && 0 <= Flip(j % 64) < 64
  {
    FlipInvolutive(j % 64);
  }

  lemma OtherHalfInjective(i: int, j: int)
    requires 0 <= i < PAIRS && 0 <= j < PAIRS && OtherHalf(i) == OtherHalf(j)
    ensures i == j
  {
    OtherHalfShape(i);
    OtherHalfShape(j);
    FlipInvolutive(i % 64);
    FlipInvolutive(j % 64);
    hide Flip, OtherHalf;
    assert i / 64 == j / 64 && Flip(i % 64) == Flip(j % 64);
  }

  lemma RowSourceInjective(r: int, s: int)
    requires 0 <= r < ROWS && 0 <= s < ROWS && RowSource(r) == RowSource(s)
    ensures r == s
  {
    RowSourceRange(r);
    RowSourceRange(s);
    hide OtherHalf;
    if r % 2 == 1 {
      OtherHalfInjective(r / 2, s / 2);
    }
  }

  /** `paired_source`: element of the flat table stored at element `d` of the paired one. */
  function PairedSource(d: int, h: int): int
    requires h > 0 && d >= 0
  {
    var j := d / (2 * h);
    var r := d % (2 * h);
    var half := r / h;
    var l := r % h;
    (if half != 0 then OtherHalf(j) else j) * h + l
  }

  // ---- element arithmetic ----

  /** Element `l` of row `r` in a table of rows of `h` values. */
  function Cell(r: int, l: int, h: int): int {
    r * h + l
  }

  lemma CellRange(r: int, l: int, h: int)
    requires 0 <= r < ROWS && 0 <= l < h
    ensures 0 <= Cell(r, l, h) < ROWS * h && Cell(r, l, h) / h == r && Cell(r, l, h) % h == l
  {
    MulMono(0, r, h);
    MulMono(r, ROWS - 1, h);
    DivUnique(r, l, h);
  }

  lemma CellOf(d: int, h: int)
    requires h > 0 && 0 <= d < ROWS * h
    ensures 0 <= d / h < ROWS && 0 <= d % h < h && d == Cell(d / h, d % h, h)
  {
    assert d == (d / h) * h + d % h;
    if d / h >= ROWS {
      MulMono(ROWS, d / h, h);
    }
    if d / h < 0 {
      MulMono(d / h, -1, h);
    }
  }

  lemma Regroup(j: int, half: int, l: int, h: int)
    requires 0 <= half < 2 && 0 <= l < h
    ensures Cell(2 * j + half, l, h) == j * (2 * h) + Cell(half, l, h) && 0 <= Cell(half, l, h) < 2 * h
  {
    if half == 0 {
      assert (2 * j) * h == j * (2 * h);
    } else {
      assert (2 * j + 1) * h == j * (2 * h) + h;
    }
  }

  /** Element `l` of paired row `r` comes from element `l` of its flat row. */
  lemma PairedSourceOfRow(r: int, l: int, h: int)
    requires 0 <= r < ROWS && 0 <= l < h
    ensures Cell(r, l, h) >= 0 && PairedSource(Cell(r, l, h), h) == Cell(RowSource(r), l, h)
  {
    var j, half := r / 2, r % 2;
    CellRange(r, l, h);
    Regroup(j, half, l, h);
    DivUnique(j, Cell(half, l, h), 2 * h);
    CellHalf(half, l, h);
    hide OtherHalf;
  }

  lemma CellHalf(half: int, l: int, h: int)
    requires 0 <= half < 2 && 0 <= l < h
    ensures Cell(half, l, h) / h == half && Cell(half, l, h) % h == l
  {
    DivUnique(half, l, h);
  }

  lemma PairedSourceRange(d: int, h: int)
    requires h > 0 && 0 <= d < ROWS * h
    ensures 0 <= PairedSource(d, h) < ROWS * h
  {
    hide PairedSource, Cell, RowSource;
    CellOf(d, h);
    PairedSourceOfRow(d / h, d % h, h);
    RowSourceRange(d / h);
    CellRange(RowSource(d / h), d % h, h);
  }

  /** The pairing is a permutation of the elements. */
  lemma PairedSourceInjective(d: int, e: int, h: int)
    requires h > 0 && 0 <= d < ROWS * h && 0 <= e < ROWS * h && PairedSource(d, h) == PairedSource(e, h)
    ensures d == e
  {
    hide PairedSource, Cell, RowSource;
    CellOf(d, h);
    CellOf(e, h);
    PairedSourceOfRow(d / h, d % h, h);
    PairedSourceOfRow(e / h, e % h, h);
    RowSourceRange(d / h);
    RowSourceRange(e / h);
    CellRange(RowSource(d / h), d % h, h);
    CellRange(RowSource(e / h), e % h, h);
    RowSourceInjective(d / h, e / h);
  }

  // ---- rows ----

  predicate Table(s: seq<int>, h: int) {
    h > 0 && |s| == ROWS * h
  }

  function Row(s: seq<int>, r: int, h: int): (row: seq<int>)
    requires Table(s, h) && 0 <= r < ROWS
    ensures |row| == h && forall l :: 0 <= l < h ==> 0 <= Cell(r, l, h) < |s| && row[l] == s[Cell(r, l, h)]
  {
    assert 0 <= r * h && r * h + h <= |s| by {
      MulMono(0, r, h);
      MulMono(r + 1, ROWS, h);
    }
    s[r * h..r * h + h]
  }

  /** `t` is the paired form of the flat table `s`. */
  ghost predicate Paired(s: seq<int>, t: seq<int>, h: int) {
    Table(s, h) && Table(t, h) && forall r :: 0 <= r < ROWS ==> 0 <= RowSource(r) < ROWS && Row(t, r, h) == Row(s, RowSource(r), h)
  }

  /** `memcpy` of one row. */
  method CopyRow(dst: array<int>, src: array<int>, to: int, from: int, h: int)
    requires dst != src && Table(dst[..], h) && Table(src[..], h) && 0 <= to < ROWS && 0 <= from < ROWS
    modifies dst
    ensures Row(dst[..], to, h) == Row(src[..], from, h)
    ensures forall r :: 0 <= r < ROWS && r != to ==> Row(dst[..], r, h) == old(Row(dst[..], r, h))
  {
    hide Cell, Row;
    for l := 0 to h
      invariant forall k :: 0 <= k < l ==> Row(dst[..], to, h)[k] == Row(src[..], from, h)[k]
      invariant forall r :: 0 <= r < ROWS && r != to ==> Row(dst[..], r, h) == old(Row(dst[..], r, h))
    {
      CellRange(to, l, h);
      CellRange(from, l, h);
      ghost var before := dst[..];
      dst[Cell(to, l, h)] := src[Cell(from, l, h)];
      OneCell(before, dst[..], to, l, h);
    }
  }

  lemma OneCell(s: seq<int>, t: seq<int>, r: int, l: int, h: int)
    requires Table(s, h) && Table(t, h) && 0 <= r < ROWS && 0 <= l < h && 0 <= Cell(r, l, h) < |s|
    requires t == s[Cell(r, l, h) := t[Cell(r, l, h)]]
    ensures Row(t, r, h) == Row(s, r, h)[l := t[Cell(r, l, h)]]
    ensures forall q :: 0 <= q < ROWS && q != r ==> Row(t, q, h) == Row(s, q, h)
  {
    hide Cell, Row;
    forall q, k | 0 <= q < ROWS && 0 <= k < h && (q != r || k != l) ensures Row(t, q, h)[k] == Row(s, q, h)[k] {
      CellRange(q, k, h);
      CellRange(r, l, h);
    }
  }

  // ---- pairing out of place ----

  /** `permute_rows`: copy row by row into a second table. */
  method PermuteRows(dst: array<int>, src: array<int>, h: int)
    requires dst != src && Table(dst[..], h) && Table(src[..], h)
    modifies dst
    ensures Paired(src[..], dst[..], h)
  {
    hide Row, RowSource, OtherHalf;
    for j := 0 to PAIRS
      invariant forall r :: 0 <= r < 2 * j ==> 0 <= RowSource(r) < ROWS && Row(dst[..], r, h) == Row(src[..], RowSource(r), h)
    {
      PairRows(j);
      CopyRow(dst, src, 2 * j, j, h);
      CopyRow(dst, src, 2 * j + 1, OtherHalf(j), h);
    }
  }

  lemma PairRows(j: int)
    requires 0 <= j < PAIRS
    ensures RowSource(2 * j) == j && RowSource(2 * j + 1) == OtherHalf(j) && PAIRS <= OtherHalf(j) < ROWS
  {
    RowSourceRange(2 * j + 1);
  }

  // ---- pairing in place ----

  /** Finished elements hold their final value, the others their original one, and finished
      elements form whole cycles. */
  ghost predicate CyclesDone(a: seq<int>, done: seq<bool>, original: seq<int>, h: int) {
    && Table(a, h) && |done| == |a| == |original|
    && forall d :: 0 <= d < |a| ==>
         && 0 <= PairedSource(d, h) < |a|
         && (done[PairedSource(d, h)] <==> done[d])
         && a[d] == original[if done[d] then PairedSource(d, h) else d]
  }

  /** Inside the cycle through `i`: everything on `path` is final, `j` is the hole still holding
      its original value. */
  ghost predicate OnCycle(a: seq<int>, done: seq<bool>, done0: seq<bool>, original: seq<int>, h: int, i: int, j: int, path: set<int>) {
    && Table(a, h) && |done| == |done0| == |a| == |original|
    && 0 <= i < |a| && 0 <= j < |a| && j !in path && i in path + {j}
    && (forall d :: d in path ==> 0 <= d < |a| && PairedSource(d, h) in path + {j})
    && (forall d :: d in path + {j} && d != i ==> exists e :: e in path && PairedSource(e, h) == d)
    && (forall d :: d in path + {j} ==> !done0[d])
    && (forall d :: 0 <= d < |a| ==> (done[d] <==> done0[d] || d in path))
    && (forall d :: 0 <= d < |a| && d != j ==>
          0 <= PairedSource(d, h) < |a| && a[d] == original[if done[d] then PairedSource(d, h) else d])
    && a[j] == original[j]
  }

  /** The next hole is a new element. */
  lemma NextHole(a: seq<int>, done: seq<bool>, done0: seq<bool>, original: seq<int>, h: int, i: int, j: int, path: set<int>)
    requires OnCycle(a, done, done0, original, h, i, j, path)
    requires Closed(done0, h) && PairedSource(j, h) != i
    ensures
      var s := PairedSource(j, h);
      s !in path + {j} && !done0[s] && OnCycle(a[j := a[s]], done[j := true], done0, original, h, i, s, path + {j})
  {
    hide PairedSource;
    var s := PairedSource(j, h);
    if s in path + {j} {
      var e :| e in path && PairedSource(e, h) == s;
      PairedSourceInjective(e, j, h);
      assert false;
    }
    assert a[s] == original[s];
    forall d | d in path + {j} + {s} && d != i ensures exists e :: e in path + {j} && PairedSource(e, h) == d {
      if d != s {
        var e :| e in path && PairedSource(e, h) == d;
        assert e in path + {j};
      }
    }
  }

  /** Closing the cycle finishes all of it. */
  lemma CloseCycle(a: seq<int>, done: seq<bool>, done0: seq<bool>, original: seq<int>, h: int, i: int, j: int, path: set<int>)
    requires OnCycle(a, done, done0, original, h, i, j, path)
    requires Closed(done0, h) && PairedSource(j, h) == i
    ensures CyclesDone(a[j := original[i]], done[j := true], original, h)
  {
    hide PairedSource;
    var cycle := path + {j};
    forall d | 0 <= d < |a| ensures PairedSource(d, h) in cycle <==> d in cycle {
      if PairedSource(d, h) in cycle && d !in cycle {
        var e := if PairedSource(d, h) == i then j else var e :| e in path && PairedSource(e, h) == PairedSource(d, h); e;
        PairedSourceInjective(d, e, h);
        assert false;
      }
    }
  }

  lemma NoneDone(a: seq<int>, done: seq<bool>, h: int)
    requires Table(a, h) && |done| == |a| && forall d :: 0 <= d < |done| ==> !done[d]
    ensures CyclesDone(a, done, a, h)
  {
    hide PairedSource;
    forall d | 0 <= d < |a| ensures 0 <= PairedSource(d, h) < |a| {
      PairedSourceRange(d, h);
    }
  }

  /** Nothing finished becomes unfinished. */
  ghost predicate Grows(before: seq<bool>, after: seq<bool>) {
    |before| == |after| && forall d :: 0 <= d < |before| && before[d] ==> after[d]
  }

  ghost predicate DoneUpTo(done: seq<bool>, i: int) {
    0 <= i <= |done| && forall d :: 0 <= d < i ==> done[d]
  }

  lemma DoneOneMore(before: seq<bool>, after: seq<bool>, i: int)
    requires DoneUpTo(before, i) && Grows(before, after) && i < |after| && after[i]
    ensures DoneUpTo(after, i + 1)
  {
  }

  lemma GrowsRefl(done: seq<bool>)
    ensures Grows(done, done)
  {
  }

  /** `permute_rows_in_place`: follow each cycle of the permutation once. */
  method PermuteRowsInPlace(a: array<int>, h: int)
    requires Table(a[..], h)
    modifies a
    ensures Paired(old(a[..]), a[..], h)
  {
    ghost var original := a[..];
    var done := new bool[a.Length](_ => false);
    NoneDone(a[..], done[..], h);
    hide Paired, CyclesDone, Table, Grows;
    assert DoneUpTo(done[..], 0);
    hide DoneUpTo;
    for i := 0 to a.Length
      invariant CyclesDone(a[..], done[..], original, h) && DoneUpTo(done[..], i)
    {
      ghost var before := done[..];
      GrowsRefl(before);
      if !done[i] {
        FollowCycle(a, done, h, i, original);
      }
      DoneOneMore(before, done[..], i);
    }
    AllDone(a[..], done[..], original, h);
  }

  ghost predicate Closed(done0: seq<bool>, h: int) {
    h > 0 && forall d :: 0 <= d < |done0| ==> 0 <= PairedSource(d, h) < |done0| && (done0[PairedSource(d, h)] <==> done0[d])
  }

  lemma StartCycle(a: seq<int>, done: seq<bool>, original: seq<int>, h: int, i: int)
    requires CyclesDone(a, done, original, h) && 0 <= i < |a| && !done[i]
    ensures OnCycle(a, done, done, original, h, i, i, {}) && Closed(done, h)
  {
    hide PairedSource;
  }

  ghost function Unset(done: seq<bool>): set<int> {
    set d | 0 <= d < |done| && !done[d]
  }

  lemma HoleFacts(a: seq<int>, done: seq<bool>, done0: seq<bool>, original: seq<int>, h: int, i: int, j: int, path: set<int>)
    requires OnCycle(a, done, done0, original, h, i, j, path) && Closed(done0, h)
    ensures |done| == |done0| == |a| == |original| && 0 <= i < |a| && 0 <= j < |a| && h > 0
    ensures 0 <= PairedSource(j, h) < |a| && Grows(done0, done) && (i == j || done[i])
    ensures j in Unset(done0) - path
  {
    hide PairedSource;
  }

  /** Fill the hole at `j` from its source, which becomes the next hole. */
  method PullHole(a: array<int>, done: array<bool>, h: int, i: int, j: int, s: int,
                  ghost done0: seq<bool>, ghost original: seq<int>, ghost path: set<int>)
    requires h > 0 && 0 <= j < a.Length == done.Length && 0 <= s < a.Length
    requires OnCycle(a[..], done[..], done0, original, h, i, j, path) && Closed(done0, h)
    requires s == PairedSource(j, h) && s != i
    modifies a, done
    ensures OnCycle(a[..], done[..], done0, original, h, i, s, path + {j})
  {
    hide PairedSource, OnCycle, Closed, Table;
    ghost var a0, d0 := a[..], done[..];
    NextHole(a0, d0, done0, original, h, i, j, path);
    done[j] := true;
    a[j] := a[s];
    assert a[..] == a0[j := a0[s]] && done[..] == d0[j := true];
  }

  /** Put the saved value into the last hole of the cycle. */
  method CloseHole(a: array<int>, done: array<bool>, h: int, i: int, j: int, tmp: int,
                   ghost done0: seq<bool>, ghost original: seq<int>, ghost path: set<int>)
    requires h > 0 && 0 <= j < a.Length == done.Length && 0 <= i < a.Length == |original|
    requires OnCycle(a[..], done[..], done0, original, h, i, j, path) && Closed(done0, h)
    requires PairedSource(j, h) == i && tmp == original[i]
    modifies a, done
    ensures CyclesDone(a[..], done[..], original, h)
    ensures done[..] == old(done[..])[j := true]
  {
    hide PairedSource, OnCycle, Closed, Table, CyclesDone;
    ghost var a0, d0 := a[..], done[..];
    CloseCycle(a0, d0, done0, original, h, i, j, path);
    done[j] := true;
    a[j] := tmp;
    assert a[..] == a0[j := original[i]] && done[..] == d0[j := true];
  }

  /** One cycle: pull each element from its source until the start comes round. */
  method FollowCycle(a: array<int>, done: array<bool>, h: int, i: int, ghost original: seq<int>)
    requires 0 <= i < a.Length == done.Length && CyclesDone(a[..], done[..], original, h) && !done[i]
    modifies a, done
    ensures CyclesDone(a[..], done[..], original, h) && done[i] && Grows(old(done[..]), done[..])
  {
    var j, tmp := i, a[i];
    ghost var done0, path: set<int> := done[..], {};
    StartCycle(a[..], done[..], original, h, i);
    OriginalAt(a[..], done[..], original, h, i);
    HoleFacts(a[..], done[..], done0, original, h, i, j, path);
    hide PairedSource, OnCycle, CyclesDone, Closed, Table, Grows, Unset;
    var s := PairedSource(j, h);
    while s != i
      invariant OnCycle(a[..], done[..], done0, original, h, i, j, path) && 0 <= j < a.Length
      invariant s == PairedSource(j, h)
      decreases Unset(done0) - path
    {
      HoleFacts(a[..], done[..], done0, original, h, i, j, path);
      PullHole(a, done, h, i, j, s, done0, original, path);
      path := path + {j};
      j := s;
      s := PairedSource(j, h);
    }
    HoleFacts(a[..], done[..], done0, original, h, i, j, path);
    ghost var before := done[..];
    CloseHole(a, done, h, i, j, tmp, done0, original, path);
    OneMore(done0, before, done[..], i, j);
  }

  lemma OneMore(done0: seq<bool>, before: seq<bool>, after: seq<bool>, i: int, j: int)
    requires 0 <= j < |before| && 0 <= i < |before| && Grows(done0, before) && after == before[j := true] && (i == j || before[i])
    ensures Grows(done0, after) && after[i]
  {
  }

  lemma OriginalAt(a: seq<int>, done: seq<bool>, original: seq<int>, h: int, i: int)
    requires CyclesDone(a, done, original, h) && 0 <= i < |a| && !done[i]
    ensures a[i] == original[i]
  {
  }

  lemma AllDone(a: seq<int>, done: seq<bool>, original: seq<int>, h: int)
    requires CyclesDone(a, done, original, h) && DoneUpTo(done, |done|)
    ensures Paired(original, a, h)
  {
    hide PairedSource, RowSource, Cell, Row;
    forall r | 0 <= r < ROWS ensures 0 <= RowSource(r) < ROWS && Row(a, r, h) == Row(original, RowSource(r), h) {
      RowSourceRange(r);
      forall l | 0 <= l < h ensures Row(a, r, h)[l] == Row(original, RowSource(r), h)[l] {
        CellRange(r, l, h);
        PairedSourceOfRow(r, l, h);
      }
    }
  }

  /** Both pairings give the same table. */
  lemma PairedUnique(s: seq<int>, t: seq<int>, u: seq<int>, h: int)
    requires Paired(s, t, h) && Paired(s, u, h)
    ensures t == u
  {
    hide Row, RowSource, Cell;
    forall d | 0 <= d < |t| ensures t[d] == u[d] {
      CellOf(d, h);
      assert Row(t, d / h, h)[d % h] == Row(u, d / h, h)[d % h];
    }
  }

  // ---- square-major order ----

  /** Where paired row `p` goes: its square's cluster of twelve. */
  function SquareMajor(p: int): int {
    p / 2 % 64 * 12 + p / 2 / 64 * 2 + p % 2
  }

  /** Paired row found at place `q` of the clustered table. */
  function PairedAt(q: int): int {
    (q % 12 / 2 * 64 + q / 12) * 2 + q % 2
  }

  lemma SquareMajorOf(piece: int, sq: int, half: int)
    requires 0 <= piece < 6 && 0 <= sq < 64 && 0 <= half < 2
    ensures SquareMajor(2 * (64 * piece + sq) + half) == 12 * sq + 2 * piece + half
  {
    var k := 64 * piece + sq;
    assert (2 * k + half) / 2 == k && (2 * k + half) % 2 == half;
    assert k / 64 == piece && k % 64 == sq;
  }

  lemma PairedAtOf(piece: int, sq: int, half: int)
    requires 0 <= piece < 6 && 0 <= sq < 64 && 0 <= half < 2
    ensures PairedAt(12 * sq + 2 * piece + half) == 2 * (64 * piece + sq) + half
  {
    var low := 2 * piece + half;
    assert (12 * sq + low) / 12 == sq && (12 * sq + low) % 12 == low;
    assert low / 2 == piece && (12 * sq + low) % 2 == half;
  }

  lemma PairedParts(p: int) returns (piece: int, sq: int, half: int)
    requires 0 <= p < ROWS
    ensures 0 <= piece < 6 && 0 <= sq < 64 && 0 <= half < 2 && p == 2 * (64 * piece + sq) + half
  {
    piece, sq, half := p / 2 / 64, p / 2 % 64, p % 2;
  }

  lemma MajorParts(q: int) returns (piece: int, sq: int, half: int)
    requires 0 <= q < ROWS
    ensures 0 <= piece < 6 && 0 <= sq < 64 && 0 <= half < 2 && q == 12 * sq + 2 * piece + half
  {
    piece, sq, half := q % 12 / 2, q / 12, q % 12 % 2;
  }

  lemma SquareMajorInverse(p: int)
    requires 0 <= p < ROWS
    ensures 0 <= SquareMajor(p) < ROWS && PairedAt(SquareMajor(p)) == p
    ensures 0 <= PairedAt(p) < ROWS && SquareMajor(PairedAt(p)) == p
  {
    hide SquareMajor, PairedAt;
    var piece, sq, half := PairedParts(p);
    SquareMajorOf(piece, sq, half);
    PairedAtOf(piece, sq, half);
    var piece', sq', half' := MajorParts(p);
    SquareMajorOf(piece', sq', half');
    PairedAtOf(piece', sq', half');
  }

  predicate SquareOrder(perm: seq<int>) {
    |perm| == ROWS && forall p :: 0 <= p < ROWS ==> perm[p] == SquareMajor(p)
  }

  /** `init_perm_square`: the permutation and its inverse, which undo each other. */
  method InitPermSquare(perm: array<int>, inv: array<int>)
    requires perm != inv && perm.Length == inv.Length == ROWS
    modifies perm, inv
    ensures SquareOrder(perm[..])
    ensures forall p :: 0 <= p < ROWS ==> 0 <= perm[p] < ROWS && inv[perm[p]] == p
    ensures forall q :: 0 <= q < ROWS ==> 0 <= inv[q] < ROWS && perm[inv[q]] == q
  {
    hide SquareMajor, PairedAt;
    for k := 0 to PAIRS
      invariant forall p :: 0 <= p < 2 * k ==> perm[p] == SquareMajor(p)
    {
      var piece, sq := k / 64, k % 64;
      assert k == 64 * piece + sq && 0 <= piece < 6;
      for half := 0 to 2
        invariant forall p :: 0 <= p < 2 * k + half ==> perm[p] == SquareMajor(p)
      {
        SquareMajorOf(piece, sq, half);
        perm[k * 2 + half] := sq * 12 + piece * 2 + half;
      }
    }
    InvertPerm(perm, inv);
    forall q | 0 <= q < ROWS ensures 0 <= inv[q] < ROWS && perm[inv[q]] == q {
      SquareMajorInverse(q);
    }
  }

  method InvertPerm(perm: array<int>, inv: array<int>)
    requires perm != inv && perm.Length == inv.Length == ROWS && SquareOrder(perm[..])
    modifies inv
    ensures forall p :: 0 <= p < ROWS ==> 0 <= perm[p] < ROWS && inv[perm[p]] == p
  {
    hide SquareMajor, PairedAt;
    for k := 0 to ROWS
      invariant forall p :: 0 <= p < k ==> 0 <= perm[p] < ROWS && inv[perm[p]] == p
    {
      SquareMajorInverse(k);
      forall p | 0 <= p < k ensures perm[p] != perm[k] {
        SquareMajorInverse(p);
      }
      inv[perm[k]] := k;
    }
  }

  ghost predicate ClusteredUpTo(s: seq<int>, t: seq<int>, h: int, k: int) {
    Table(s, h) && Table(t, h)
    && forall r :: 0 <= r < ROWS && r < k ==> 0 <= SquareMajor(r) < ROWS && Row(t, SquareMajor(r), h) == Row(s, r, h)
  }

  /** `t` is `s` with its rows clustered by square. */
  ghost predicate Clustered(s: seq<int>, t: seq<int>, h: int) {
    ClusteredUpTo(s, t, h, ROWS)
  }

  lemma ClusterRow(s: seq<int>, t: seq<int>, u: seq<int>, h: int, k: int)
    requires 0 <= k < ROWS && ClusteredUpTo(s, t, h, k) && Table(u, h) && 0 <= SquareMajor(k) < ROWS
    requires Row(u, SquareMajor(k), h) == Row(s, k, h)
    requires forall r :: 0 <= r < ROWS && r != SquareMajor(k) ==> Row(u, r, h) == Row(t, r, h)
    ensures ClusteredUpTo(s, u, h, k + 1)
  {
    hide Row, SquareMajor;
    forall r | 0 <= r < k ensures SquareMajor(r) != SquareMajor(k) {
      SquareMajorInverse(r);
      SquareMajorInverse(k);
    }
  }

  /** `reorder_by_square_in_place`, through a temporary table; nothing happens when it is not granted. */
  method ReorderBySquareInPlace(a: array<int>, perm: seq<int>, h: int, granted: bool)
    requires Table(a[..], h) && SquareOrder(perm)
    modifies a
    ensures if granted then Clustered(old(a[..]), a[..], h) else a[..] == old(a[..])
  {
    if !granted {
      return;
    }
    ghost var original := a[..];
    var tmp := new int[a.Length];
    assert Table(tmp[..], h) && ClusteredUpTo(original, tmp[..], h, 0);
    hide Row, SquareMajor, ClusteredUpTo;
    for k := 0 to ROWS
      invariant a[..] == original && ClusteredUpTo(original, tmp[..], h, k)
    {
      ghost var before := tmp[..];
      SquareMajorInverse(k);
      CopyRow(tmp, a, perm[k], k, h);
      ClusterRow(original, before, tmp[..], h, k);
    }
    CopyAll(a, tmp);
  }

  method CopyAll(a: array<int>, tmp: array<int>)
    requires a != tmp && a.Length == tmp.Length
    modifies a
    ensures a[..] == tmp[..]
  {
    for i := 0 to a.Length
      invariant a[..i] == tmp[..i]
    {
      a[i] := tmp[i];
    }
  }

  // ---- the rows of a piece ----

  /** The flat-table row a piece adds to the accumulator of one side: 64 rows for each of the
      side's own six piece types, then the enemy's, squares seen from that side. */
  function FeatureRow(view: Color, s: Square, p: Piece): (r: int)
    ensures 0 <= r < ROWS
  {
    FlipInvolutive(s);
    (if p.color == view then 0 else PAIRS) + 64 * p.kind + (if view == WHITE then s else Flip(s))
  }

  /** Seen from the other side a square keeps its file, and its rank counts from the other end. */
  lemma FlipMeaning(s: Square)
    ensures 0 <= Flip(s) < 64 && Lookups.File(Flip(s)) == Lookups.File(s) && Lookups.Rank(Flip(s)) == 7 - Lookups.Rank(s)
  {
  }

  /** White's own pieces have rows 64 times the type plus the square, Black's the same 384 further on,
      and Black sees a piece where White sees it with the colours and the ranks exchanged. */
  lemma FeatureRowMeaning(s: Square, k: PieceType, c: Color)
    ensures FeatureRow(WHITE, s, Piece(k, c)) == 64 * k + 8 * Lookups.Rank(s) + Lookups.File(s) + if c == WHITE then 0 else 384
    ensures FeatureRow(BLACK, s, Piece(k, c)) ==
      FeatureRow(WHITE, Lookups.At(Lookups.File(s), 7 - Lookups.Rank(s)), Piece(k, Other(c)))
  {
    FlipMeaning(s);
  }

  /** The table built at boot from the flat one: paired, then clustered by square. */
  ghost predicate Boot(flat: seq<int>, table: seq<int>, h: int) {
    Table(flat, h) && Table(table, h)
    && forall r :: 0 <= r < ROWS ==>
         && 0 <= RowSource(r) < ROWS && 0 <= SquareMajor(r) < ROWS
         && Row(table, SquareMajor(r), h) == Row(flat, RowSource(r), h)
  }

  lemma BootIsBoth(flat: seq<int>, paired: seq<int>, table: seq<int>, h: int)
    requires Paired(flat, paired, h) && Clustered(paired, table, h)
    ensures Boot(flat, table, h)
  {
    hide Row, RowSource, SquareMajor;
  }

  /** A table paired but not clustered serves the look-up exactly when clustering would not have
      changed it; never when the flat rows 1 and 6 differ. */
  lemma UnclusteredExactly(flat: seq<int>, paired: seq<int>, h: int)
    requires Paired(flat, paired, h)
    ensures Boot(flat, paired, h) <==> Clustered(paired, paired, h)
    ensures Row(flat, 1, h) != Row(flat, 6, h) ==> !Boot(flat, paired, h)
  {
    hide Row, RowSource, SquareMajor;
    forall r | 0 <= r < ROWS ensures 0 <= SquareMajor(r) < ROWS && 0 <= RowSource(r) < ROWS {
      SquareMajorInverse(r);
      RowSourceRange(r);
    }
    FirstMisplaced();
    assert Boot(flat, paired, h) ==> Row(paired, SquareMajor(2), h) == Row(flat, RowSource(2), h);
    assert Row(paired, 12, h) == Row(flat, RowSource(12), h);
  }

  lemma FirstMisplaced()
    ensures SquareMajor(2) == 12 && RowSource(2) == 1 && RowSource(12) == 6
  {
  }

  /** The board's start-up: the copied table is permuted where it lies. When the temporary table
      is not granted the rows stay paired, and the look-up goes wrong unless the table happens not
      to depend on the order. */
  method BuildInPlace(a: array<int>, perm: seq<int>, h: int, granted: bool)
    requires Table(a[..], h) && SquareOrder(perm)
    modifies a
    ensures granted ==> Boot(old(a[..]), a[..], h)
    ensures !granted ==> Paired(old(a[..]), a[..], h)
    ensures !granted && Row(old(a[..]), 1, h) != Row(old(a[..]), 6, h) ==> !Boot(old(a[..]), a[..], h)
  {
    ghost var flat := a[..];
    PermuteRowsInPlace(a, h);
    ghost var paired := a[..];
    ReorderBySquareInPlace(a, perm, h, granted);
    hide Row;
    if granted {
      BootIsBoth(flat, paired, a[..], h);
    } else {
      UnclusteredExactly(flat, paired, h);
    }
  }

  /** The desktop's start-up: pair into a second table, then cluster it. */
  method BuildOutOfPlace(dst: array<int>, src: array<int>, perm: seq<int>, h: int)
    requires dst != src && Table(dst[..], h) && Table(src[..], h) && SquareOrder(perm)
    modifies dst
    ensures Boot(src[..], dst[..], h)
  {
    PermuteRows(dst, src, h);
    ghost var paired := dst[..];
    ReorderBySquareInPlace(dst, perm, h, true);
    BootIsBoth(src[..], paired, dst[..], h);
  }

  /** Both ways of resolving a piece's pair name the rows of the flat table. */
  lemma PairRowsOf(s: Square, p: Piece)
    ensures
      var k := 64 * p.kind + if p.color == WHITE then s else Flip(s);
      var half := if p.color == WHITE then 0 else 1;
      && 0 <= k < PAIRS
      && RowSource(2 * k + half) == FeatureRow(WHITE, s, p) == (if half == 1 then OtherHalf(k) else k)
      && RowSource(2 * k + (1 - half)) == FeatureRow(BLACK, s, p) == (if half == 1 then k else OtherHalf(k))
  {
    FlipInvolutive(s);
    var t := if p.color == WHITE then s else Flip(s);
    OtherHalfOf(p.kind, t);
    RowSourceOf(64 * p.kind + t);
    hide Flip, OtherHalf, RowSource;
  }

  lemma OtherHalfOf(kind: int, t: int)
    requires 0 <= t < 64
    ensures OtherHalf(64 * kind + t) == PAIRS + 64 * kind + Flip(t)
  {
    assert (64 * kind + t) % 64 == t;
  }

  lemma RowSourceOf(k: int)
    ensures RowSource(2 * k) == k && RowSource(2 * k + 1) == OtherHalf(k)
  {
  }

  /** `push_delta`: the rows looked up through the reordered table, or in the flat one when
      there is none, are the piece's flat rows. */
  method PushDelta(flat: seq<int>, table: Option<seq<int>>, perm: seq<int>, h: int, s: Square, p: Piece, add: bool) returns (d: Delta)
    requires Table(flat, h) && SquareOrder(perm)
    requires table.Some? ==> Boot(flat, table.value, h)
    ensures d == Delta(Row(flat, FeatureRow(WHITE, s, p), h), Row(flat, FeatureRow(BLACK, s, p), h), add)
  {
    PairRowsOf(s, p);
    hide Row, RowSource, SquareMajor, OtherHalf, FeatureRow;
    var k := 64 * p.kind + if p.color == WHITE then s else Flip(s);
    var half := if p.color == WHITE then 0 else 1;
    hide Flip;
    if table.Some? {
      var pw, pb := perm[k * 2 + half], perm[k * 2 + (1 - half)];
      d := Delta(Row(table.value, pw, h), Row(table.value, pb, h), add);
    } else {
      var own, other := k, OtherHalf(k);
      d := Delta(Row(flat, if half == 1 then other else own, h), Row(flat, if half == 1 then own else other, h), add);
    }
  }
}
