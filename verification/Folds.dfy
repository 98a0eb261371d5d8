/** Order-independent totals over the pieces of a board: integer sums and key xors. */
module Folds {
  import opened Types

  function Sum(f: (Square, Piece) -> int, cells: Cells, squares: Bitboard): int
    requires squares <= cells.Keys
  {
    if squares == {} then 0
    else var s := Lowest(squares); f(s, cells[s]) + Sum(f, cells, squares - {s})
  }

  function Total(f: (Square, Piece) -> int, cells: Cells): int {
    Sum(f, cells, cells.Keys)
  }

  lemma {:induction false} SumTake(f: (Square, Piece) -> int, cells: Cells, squares: Bitboard, x: Square)
    requires squares <= cells.Keys && x in squares
    ensures Sum(f, cells, squares) == f(x, cells[x]) + Sum(f, cells, squares - {x})
  {
    var s := Lowest(squares);
    if s != x {
      SumTake(f, cells, squares - {s}, x);
      SumTake(f, cells, squares - {x}, s);
      assert squares - {s} - {x} == squares - {x} - {s};
    }
  }

  lemma {:induction false} SumAgree(f: (Square, Piece) -> int, a: Cells, b: Cells, squares: Bitboard)
    requires squares <= a.Keys && squares <= b.Keys
    requires forall s :: s in squares ==> a[s] == b[s]
    ensures Sum(f, a, squares) == Sum(f, b, squares)
  {
    if squares != {} {
      SumAgree(f, a, b, squares - {Lowest(squares)});
    }
  }

  lemma TotalPut(f: (Square, Piece) -> int, cells: Cells, s: Square, p: Piece)
    requires s !in cells
    ensures Total(f, Put(cells, s, p)) == Total(f, cells) + f(s, p)
  {
    var after := Put(cells, s, p);
    SumTake(f, after, after.Keys, s);
    assert after.Keys - {s} == cells.Keys;
    SumAgree(f, after, cells, cells.Keys);
  }

  lemma TotalRemove(f: (Square, Piece) -> int, cells: Cells, s: Square)
    requires s in cells
    ensures Total(f, Remove(cells, s)) == Total(f, cells) - f(s, cells[s])
  {
    var after := Remove(cells, s);
    SumTake(f, cells, cells.Keys, s);
    assert after.Keys == cells.Keys - {s};
    SumAgree(f, after, cells, after.Keys);
  }

  function XorSum(f: (Square, Piece) -> Word, cells: Cells, squares: Bitboard): Word
    requires squares <= cells.Keys
  {
    if squares == {} then {}
    else var s := Lowest(squares); Xor(f(s, cells[s]), XorSum(f, cells, squares - {s}))
  }

  function XorTotal(f: (Square, Piece) -> Word, cells: Cells): Word {
    XorSum(f, cells, cells.Keys)
  }

  lemma {:induction false} XorTake(f: (Square, Piece) -> Word, cells: Cells, squares: Bitboard, x: Square)
    requires squares <= cells.Keys && x in squares
    ensures XorSum(f, cells, squares) == Xor(f(x, cells[x]), XorSum(f, cells, squares - {x}))
  {
    var s := Lowest(squares);
    if s != x {
      XorTake(f, cells, squares - {s}, x);
      XorTake(f, cells, squares - {x}, s);
      assert squares - {s} - {x} == squares - {x} - {s};
      XorLaws(f(s, cells[s]), f(x, cells[x]), XorSum(f, cells, squares - {s} - {x}));
    }
  }

  lemma {:induction false} XorAgree(f: (Square, Piece) -> Word, a: Cells, b: Cells, squares: Bitboard)
    requires squares <= a.Keys && squares <= b.Keys
    requires forall s :: s in squares ==> a[s] == b[s]
    ensures XorSum(f, a, squares) == XorSum(f, b, squares)
  {
    if squares != {} {
      XorAgree(f, a, b, squares - {Lowest(squares)});
    }
  }

  lemma {:induction false} XorUnion(f: (Square, Piece) -> Word, cells: Cells, a: Bitboard, b: Bitboard)
    requires a <= cells.Keys && b <= cells.Keys && a !! b
    ensures XorSum(f, cells, a + b) == Xor(XorSum(f, cells, a), XorSum(f, cells, b))
  {
    if b == {} {
      assert a + b == a;
      XorLaws(XorSum(f, cells, a), {}, {});
    } else {
      var s := Lowest(b);
      XorTake(f, cells, a + b, s);
      assert a + b - {s} == a + (b - {s});
      XorUnion(f, cells, a, b - {s});
      XorLaws(f(s, cells[s]), XorSum(f, cells, a), XorSum(f, cells, b - {s}));
    }
  }

  lemma XorPut(f: (Square, Piece) -> Word, cells: Cells, s: Square, p: Piece)
    requires s !in cells
    ensures XorTotal(f, Put(cells, s, p)) == Xor(f(s, p), XorTotal(f, cells))
  {
    var after := Put(cells, s, p);
    XorTake(f, after, after.Keys, s);
    assert after.Keys - {s} == cells.Keys;
    XorAgree(f, after, cells, cells.Keys);
  }

  lemma XorRemove(f: (Square, Piece) -> Word, cells: Cells, s: Square)
    requires s in cells
    ensures XorTotal(f, Remove(cells, s)) == Xor(f(s, cells[s]), XorTotal(f, cells))
  {
    var after := Remove(cells, s);
    XorTake(f, cells, cells.Keys, s);
    assert after.Keys == cells.Keys - {s};
    XorAgree(f, after, cells, after.Keys);
    XorLaws(f(s, cells[s]), {}, XorTotal(f, after));
  }
}
