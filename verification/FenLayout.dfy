/** How a position's text is laid out, as in section 16.1 of the PGN Specification and Implementation
    Guide: which square comes first and last, which letter means which piece, in what order the
    fields come and how each is written. */
module FenLayout {
  import opened Types
  import opened Lookups
  import opened Rules
  import opened Fen

  /** Capital letters are White's. */
  lemma Letters()
    ensures PieceChar(Piece(PAWN, WHITE)) == 'P' && PieceChar(Piece(KNIGHT, WHITE)) == 'N' && PieceChar(Piece(BISHOP, WHITE)) == 'B'
    ensures PieceChar(Piece(ROOK, WHITE)) == 'R' && PieceChar(Piece(QUEEN, WHITE)) == 'Q' && PieceChar(Piece(KING, WHITE)) == 'K'
    ensures PieceChar(Piece(PAWN, BLACK)) == 'p' && PieceChar(Piece(KNIGHT, BLACK)) == 'n' && PieceChar(Piece(BISHOP, BLACK)) == 'b'
    ensures PieceChar(Piece(ROOK, BLACK)) == 'r' && PieceChar(Piece(QUEEN, BLACK)) == 'q' && PieceChar(Piece(KING, BLACK)) == 'k'
  {
  }

  lemma {:induction false} RankEnds(cells: Cells, rank: int, file: int, empty: int)
    requires 0 <= rank < 8 && 0 <= file < 8 && 0 <= empty <= file
    ensures
      var text := RankText(cells, rank, file, empty);
      text != "" && (8 * rank + 7 in cells ==> text[|text| - 1] == PieceChar(cells[8 * rank + 7]))
    decreases 8 - file
  {
    hide PieceChar;
    if file < 7 {
      RankEnds(cells, rank, file + 1, if 8 * rank + file in cells then 0 else empty + 1);
    }
  }

  lemma {:induction false} PlacementEnds(cells: Cells, rank: int)
    requires 0 <= rank < 8
    ensures
      var text := PlacementText(cells, rank);
      text != "" && (7 in cells ==> text[|text| - 1] == PieceChar(cells[7]))
  {
    hide PieceChar, RankText;
    RankEnds(cells, rank, 0, 0);
    if rank > 0 {
      PlacementEnds(cells, rank - 1);
    }
  }

  /** The board is written from a8 to h1. */
  lemma FirstAndLast(cells: Cells)
    ensures
      var text := PlacementText(cells, 7);
      && text != ""
      && (56 in cells ==> text[0] == PieceChar(cells[56]))
      && (7 in cells ==> text[|text| - 1] == PieceChar(cells[7]))
  {
    PlacementEnds(cells, 7);
    hide PieceChar;
  }

  /** A run of empty squares is its length. */
  lemma EmptyRank(cells: Cells, rank: int)
    requires 0 <= rank < 8 && forall s: Square :: s in cells ==> Rank(s) != rank
    ensures RankText(cells, rank, 0, 0) == "8"
  {
    EmptyFrom(cells, rank, 0);
  }

  lemma {:induction false} EmptyFrom(cells: Cells, rank: int, file: int)
    requires 0 <= rank < 8 && 0 <= file <= 8 && forall s: Square :: s in cells ==> Rank(s) != rank
    ensures RankText(cells, rank, file, file) == "8"
    decreases 8 - file
  {
    if file < 8 {
      assert Rank(8 * rank + file) == rank;
      EmptyFrom(cells, rank, file + 1);
    }
  }

  lemma SideAndRights()
    ensures SideText(WHITE) == "w" && SideText(BLACK) == "b"
    ensures RightsText(15) == "KQkq" && RightsText(0) == "-" && RightsText(6) == "Qk"
  {
  }

  lemma SquareNames(s: Square)
    ensures EpText(None) == "-" && EpText(Some(s)) == ["abcdefgh"[File(s)], "12345678"[Rank(s)]]
  {
  }

  lemma Decimals()
    ensures IntText(0) == "0" && IntText(25) == "25" && IntText(-3) == "-3" && IntText(150) == "150"
  {
    assert NatText(2) == "2" && NatText(1) == "1";
    assert NatText(25) == NatText(2) + "5" && NatText(15) == NatText(1) + "5" && NatText(150) == NatText(15) + "0";
  }

  /** Board, side, rights, en-passant square, half-moves, full moves, one space between each two. */
  lemma SixFields(p: Pos)
    requires p.history != []
    ensures Text(p) ==
      PlacementText(p.cells, 7) + " " + (SideText(p.stm) + " " + (RightsText(p.Top().rights) + " " + (EpText(p.Top().ep) + " " +
      (IntText(p.Top().halfmoves) + " " + IntText(p.fullmoves)))))
  {
    hide PlacementText, SideText, RightsText, EpText, IntText, Fields;
    var a, b, c := PlacementText(p.cells, 7), SideText(p.stm), RightsText(p.Top().rights);
    var d, e, f := EpText(p.Top().ep), IntText(p.Top().halfmoves), IntText(p.fullmoves);
    FieldList(p);
    JoinNext(a, [b, c, d, e, f]);
    JoinNext(b, [c, d, e, f]);
    JoinNext(c, [d, e, f]);
    JoinNext(d, [e, f]);
    JoinNext(e, [f]);
  }

  lemma FieldList(p: Pos)
    requires p.history != []
    ensures Fields(p) == [PlacementText(p.cells, 7)] + [SideText(p.stm), RightsText(p.Top().rights), EpText(p.Top().ep),
                                                        IntText(p.Top().halfmoves), IntText(p.fullmoves)]
  {
    hide PlacementText, SideText, RightsText, EpText, IntText;
  }

  lemma JoinNext(first: string, rest: seq<string>)
    requires rest != []
    ensures Join([first] + rest) == first + " " + Join(rest)
  {
    assert ([first] + rest)[1..] == rest;
  }
}
