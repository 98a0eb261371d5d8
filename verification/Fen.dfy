/** Forsyth-Edwards text: the printer, the parser, and that they undo each other. The format is
    section 16.1 of the PGN Specification and Implementation Guide. */
module Fen {
  import opened Types
  import opened Lookups
  import opened Rules
  import opened Legality
  import opened Positions
  import opened Pins
  import opened Evasions
  import opened Runs

  // ---- single characters ----

  function DigitChar(n: int): char
    requires 0 <= n <= 9
  {
    "0123456789"[n]
  }

  function DigitValue(c: char): Option<int> {
    if '0' <= c <= '9' then Some(c as int - '0' as int) else None
  }

  function PieceChar(p: Piece): char {
    (if p.color == WHITE then "PNBRQK" else "pnbrqk")[p.kind]
  }

  /** `Piece::from`. */
  function PieceOfChar(c: char): Option<Piece> {
    match c
    case 'P' => Some(Piece(PAWN, WHITE)) case 'N' => Some(Piece(KNIGHT, WHITE)) case 'B' => Some(Piece(BISHOP, WHITE))
    case 'R' => Some(Piece(ROOK, WHITE)) case 'Q' => Some(Piece(QUEEN, WHITE)) case 'K' => Some(Piece(KING, WHITE))
    case 'p' => Some(Piece(PAWN, BLACK)) case 'n' => Some(Piece(KNIGHT, BLACK)) case 'b' => Some(Piece(BISHOP, BLACK))
    case 'r' => Some(Piece(ROOK, BLACK)) case 'q' => Some(Piece(QUEEN, BLACK)) case 'k' => Some(Piece(KING, BLACK))
    case _ => None
  }

  lemma PieceCharRoundTrip(p: Piece)
    ensures PieceOfChar(PieceChar(p)) == Some(p) && !IsSpace(PieceChar(p)) && PieceChar(p) != '/' && DigitValue(PieceChar(p)).None?
  {
  }

  lemma DigitRoundTrip(n: int)
    requires 0 <= n <= 9
    ensures DigitValue(DigitChar(n)) == Some(n) && !IsSpace(DigitChar(n)) && DigitChar(n) != '/' && DigitChar(n) != '-' && DigitChar(n) != '+'
  {
  }

  // ---- piece placement ----

  /** One rank from `file` on, with `empty` empty squares pending. */
  function RankText(cells: Cells, rank: int, file: int, empty: int): string
    requires 0 <= rank < 8 && 0 <= file <= 8 && 0 <= empty <= file
    decreases 8 - file
  {
    if file == 8 then Pending(empty)
    else if 8 * rank + file in cells then Pending(empty) + [PieceChar(cells[8 * rank + file])] + RankText(cells, rank, file + 1, 0)
    else RankText(cells, rank, file + 1, empty + 1)
  }

  function PlacementText(cells: Cells, rank: int): string
    requires 0 <= rank < 8
  {
    RankText(cells, rank, 0, 0) + if rank == 0 then "" else "/" + PlacementText(cells, rank - 1)
  }

  /** The parser's walk: digits skip, a slash goes back two ranks, pieces are put. None where the
      walk would put a piece off the board or onto a different one. */
  function Scan(text: string, square: int, cells: Cells): Option<Cells> {
    if text == "" then Some(cells)
    else
      var c := text[0];
      if '1' <= c <= '9' then Scan(text[1..], square + (c as int - '0' as int), cells)
      else if c == '/' then Scan(text[1..], square - 16, cells)
      else if PieceOfChar(c).None? then Scan(text[1..], square + 1, cells)
      else if 0 <= square < 64 && (square in cells ==> cells[square] == PieceOfChar(c).value) then Scan(text[1..], square + 1, cells[square := PieceOfChar(c).value])
      else None
  }

  // ---- texts that describe no board ----

  /** Every piece the walk puts, with its square; none where one lands off the board. */
  function Placed(text: string, square: int): Option<set<(Square, Piece)>> {
    if text == "" then Some({})
    else
      var c := text[0];
      if '1' <= c <= '9' then Placed(text[1..], square + (c as int - '0' as int))
      else if c == '/' then Placed(text[1..], square - 16)
      else if PieceOfChar(c).None? then Placed(text[1..], square + 1)
      else if !(0 <= square < 64) then None
      else
        var rest := Placed(text[1..], square + 1);
        if rest.None? then None else Some({(square, PieceOfChar(c).value)} + rest.value)
  }

  /** The boards the code builds by or-ing in every piece put are those of the mailbox. */
  ghost predicate Describe(put: set<(Square, Piece)>, cells: Cells) {
    && (forall k: PieceType, s: Square :: s in OfKind(cells, k) <==> exists p: Piece :: (s, p) in put && p.kind == k)
    && (forall c: Color, s: Square :: s in Side(cells, c) <==> exists p: Piece :: (s, p) in put && p.color == c)
  }

  /** No two different pieces on one square, nor against the pieces already there. */
  ghost predicate Compatible(put: set<(Square, Piece)>, cells: Cells) {
    && (forall s: Square, p: Piece, q: Piece :: (s, p) in put && (s, q) in put ==> p == q)
    && (forall s: Square, p: Piece :: (s, p) in put && s in cells ==> cells[s] == p)
  }

  ghost predicate Joined(cells: Cells, put: set<(Square, Piece)>, all: Cells) {
    forall s: Square, p: Piece :: s in all && all[s] == p <==> (s in cells && cells[s] == p) || (s, p) in put
  }

  lemma {:induction false} ScanPlaces(text: string, square: int, cells: Cells)
    ensures Scan(text, square, cells).Some? <==> Placed(text, square).Some? && Compatible(Placed(text, square).value, cells)
    ensures Scan(text, square, cells).Some? ==> Joined(cells, Placed(text, square).value, Scan(text, square, cells).value)
  {
    hide PieceOfChar;
    if text != "" {
      var c := text[0];
      if '1' <= c <= '9' {
        ScanPlaces(text[1..], square + (c as int - '0' as int), cells);
      } else if c == '/' {
        ScanPlaces(text[1..], square - 16, cells);
      } else if PieceOfChar(c).None? {
        ScanPlaces(text[1..], square + 1, cells);
      } else if 0 <= square < 64 {
        var p := PieceOfChar(c).value;
        ScanPlaces(text[1..], square + 1, cells[square := p]);
        if Placed(text[1..], square + 1).Some? {
          PutFirst(square, p, Placed(text[1..], square + 1).value, cells);
          if Scan(text, square, cells).Some? {
            JoinFirst(square, p, Placed(text[1..], square + 1).value, cells, Scan(text, square, cells).value);
          }
        }
        hide Compatible, Joined;
      }
    }
  }

  lemma PutFirst(square: Square, p: Piece, rest: set<(Square, Piece)>, cells: Cells)
    ensures Compatible({(square, p)} + rest, cells) <==> (square in cells ==> cells[square] == p) && Compatible(rest, cells[square := p])
  {
    var put, next := {(square, p)} + rest, cells[square := p];
    assert (square, p) in put;
    if Compatible(put, cells) {
      forall s: Square, q: Piece | (s, q) in rest && s in next ensures next[s] == q {
        assert (s, q) in put;
      }
      forall s: Square, q: Piece, r: Piece | (s, q) in rest && (s, r) in rest ensures q == r {
        assert (s, q) in put && (s, r) in put;
      }
    }
  }

  lemma JoinFirst(square: Square, p: Piece, rest: set<(Square, Piece)>, cells: Cells, all: Cells)
    requires (square in cells ==> cells[square] == p) && Joined(cells[square := p], rest, all)
    ensures Joined(cells, {(square, p)} + rest, all)
  {
    forall s: Square, q: Piece
      ensures s in all && all[s] == q <==> (s in cells && cells[s] == q) || (s, q) in {(square, p)} + rest
    {
      assert s in all && all[s] == q <==> (s in cells[square := p] && cells[square := p][s] == q) || (s, q) in rest;
    }
  }

  /** The parser accepts a placement if and only if some mailbox is what the boards it builds encode;
      then it is the one it finds. */
  lemma PlacementExactly(text: string)
    ensures Scan(text, A8, map[]).Some? <==> Placed(text, A8).Some? && exists cells :: Describe(Placed(text, A8).value, cells)
    ensures Scan(text, A8, map[]).Some? ==> Describe(Placed(text, A8).value, Scan(text, A8, map[]).value)
  {
    hide Scan, Placed;
    ScanPlaces(text, A8, map[]);
    if Scan(text, A8, map[]).Some? {
      JoinedDescribes(Placed(text, A8).value, Scan(text, A8, map[]).value);
    } else if Placed(text, A8).Some? {
      if cells :| Describe(Placed(text, A8).value, cells) {
        DescribedIsCompatible(Placed(text, A8).value, cells);
      }
    }
  }

  lemma JoinedDescribes(put: set<(Square, Piece)>, cells: Cells)
    requires Joined(map[], put, cells)
    ensures Describe(put, cells)
  {
    forall k: PieceType, s: Square ensures s in OfKind(cells, k) <==> exists p: Piece :: (s, p) in put && p.kind == k {
      if s in OfKind(cells, k) {
        assert (s, cells[s]) in put;
      }
    }
    forall c: Color, s: Square ensures s in Side(cells, c) <==> exists p: Piece :: (s, p) in put && p.color == c {
      if s in Side(cells, c) {
        assert (s, cells[s]) in put;
      }
    }
  }

  lemma DescribedIsCompatible(put: set<(Square, Piece)>, cells: Cells)
    requires Describe(put, cells)
    ensures Compatible(put, map[])
  {
    forall s: Square, p: Piece | (s, p) in put ensures s in cells && cells[s] == p {
      assert s in OfKind(cells, p.kind) && s in Side(cells, p.color);
    }
  }

  /** The pieces on the ranks above `rank`, and on `rank` left of `file`. */
  function Seen(cells: Cells, rank: int, file: int): Cells {
    map s | s in cells && s >= 0 && (Rank(s) > rank || (Rank(s) == rank && File(s) < file)) :: cells[s]
  }

  lemma SeenNext(cells: Cells, rank: int, file: int)
    requires 0 <= rank < 8 && 0 <= file < 8
    ensures
      var s := 8 * rank + file;
      && s !in Seen(cells, rank, file)
      && Seen(cells, rank, file + 1) == if s in cells then Seen(cells, rank, file)[s := cells[s]] else Seen(cells, rank, file)
  {
  }

  lemma SeenRank(cells: Cells, rank: int)
    ensures Seen(cells, rank, 8) == Seen(cells, rank - 1, 0)
  {
  }

  function Pending(empty: int): string
    requires 0 <= empty <= 9
  {
    if empty > 0 then [DigitChar(empty)] else ""
  }

  lemma ScanPending(empty: int, rest: string, square: int, cells: Cells)
    requires 0 <= empty <= 9
    ensures Scan(Pending(empty) + rest, square, cells) == Scan(rest, square + empty, cells)
  {
    if empty > 0 {
      DigitRoundTrip(empty);
      assert ([DigitChar(empty)] + rest)[1..] == rest;
    } else {
      assert "" + rest == rest;
    }
  }

  lemma ScanPiece(p: Piece, rest: string, square: Square, cells: Cells)
    requires square !in cells
    ensures Scan([PieceChar(p)] + rest, square, cells) == Scan(rest, square + 1, cells[square := p])
  {
    PieceCharRoundTrip(p);
    assert ([PieceChar(p)] + rest)[1..] == rest;
  }

  lemma RankTextStep(cells: Cells, rank: int, file: int, empty: int, rest: string)
    requires 0 <= rank < 8 && 0 <= file < 8 && 0 <= empty <= file && 8 * rank + file in cells
    ensures RankText(cells, rank, file, empty) + rest ==
      Pending(empty) + ([PieceChar(cells[8 * rank + file])] + (RankText(cells, rank, file + 1, 0) + rest))
  {
  }

  lemma RankTextEnds(cells: Cells, rank: int, file: int, empty: int)
    requires 0 <= rank < 8 && 0 <= file <= 8 && 0 <= empty <= file
    ensures file == 8 ==> RankText(cells, rank, file, empty) == Pending(empty)
    ensures file < 8 && 8 * rank + file !in cells ==> RankText(cells, rank, file, empty) == RankText(cells, rank, file + 1, empty + 1)
  {
  }

  /** Reading a printed rank puts exactly its pieces. */
  lemma {:induction false} ScanRank(cells: Cells, rank: int, file: int, empty: int, rest: string)
    requires 0 <= rank < 8 && 0 <= file <= 8 && 0 <= empty <= file
    ensures Scan(RankText(cells, rank, file, empty) + rest, 8 * rank + file - empty, Seen(cells, rank, file)) ==
      Scan(rest, 8 * rank + 8, Seen(cells, rank, 8))
    decreases 8 - file
  {
    hide Scan, Seen, RankText, Pending, PieceChar, Rank, File;
    var s, seen := 8 * rank + file, Seen(cells, rank, file);
    RankTextEnds(cells, rank, file, empty);
    if file == 8 {
      ScanPending(empty, rest, s - empty, seen);
    } else {
      SeenNext(cells, rank, file);
      if s in cells {
        var tail := RankText(cells, rank, file + 1, 0) + rest;
        RankTextStep(cells, rank, file, empty, rest);
        ScanPending(empty, [PieceChar(cells[s])] + tail, s - empty, seen);
        ScanPiece(cells[s], tail, s, seen);
        ScanRank(cells, rank, file + 1, 0, rest);
      } else {
        ScanRank(cells, rank, file + 1, empty + 1, rest);
      }
    }
  }

  lemma SeenEnds(cells: Cells)
    ensures Seen(cells, 0, 8) == cells && Seen(cells, 7, 0) == map[]
    ensures Scan("", 8, cells) == Some(cells)
  {
  }

  lemma ScanSlash(rest: string, square: int, cells: Cells)
    ensures Scan("/" + rest, square, cells) == Scan(rest, square - 16, cells)
  {
    assert ("/" + rest)[1..] == rest;
  }

  lemma PlacementStep(cells: Cells, rank: int)
    requires 0 <= rank < 8
    ensures PlacementText(cells, rank) == RankText(cells, rank, 0, 0) + if rank == 0 then "" else "/" + PlacementText(cells, rank - 1)
  {
  }

  /** Reading the printed placement gives back the board. */
  lemma {:induction false} ScanPlacement(cells: Cells, rank: int)
    requires 0 <= rank < 8
    ensures Scan(PlacementText(cells, rank), 8 * rank, Seen(cells, rank, 0)) == Some(cells)
  {
    hide Scan, Seen, RankText, PlacementText;
    var rest := if rank == 0 then "" else "/" + PlacementText(cells, rank - 1);
    PlacementStep(cells, rank);
    SeenEnds(cells);
    ScanRank(cells, rank, 0, 0, rest);
    if rank > 0 {
      SeenRank(cells, rank);
      ScanPlacement(cells, rank - 1);
      ScanSlash(PlacementText(cells, rank - 1), 8 * rank + 8, Seen(cells, rank, 8));
    }
  }

  // ---- the other fields ----

  function RightsText(rights: bv4): string {
    var s := (if rights & 1 != 0 then "K" else "") + (if rights & 2 != 0 then "Q" else "") +
             (if rights & 4 != 0 then "k" else "") + (if rights & 8 != 0 then "q" else "");
    if s == "" then "-" else s
  }

  function RightOfChar(c: char): bv4 {
    if c == 'K' then 1 else if c == 'Q' then 2 else if c == 'k' then 4 else if c == 'q' then 8 else 0
  }

  function RightsOf(text: string): bv4 {
    if text == "" then 0 else RightOfChar(text[0]) | RightsOf(text[1..])
  }

  function SquareText(s: Square): string {
    ["abcdefgh"[File(s)], "12345678"[Rank(s)]]
  }

  /** The character at `i`, or the terminator. */
  function CharAt(text: string, i: nat): char {
    if i < |text| then text[i] else 0 as char
  }

  /** `Square::from`: upper-case files count too. */
  function SquareOf(text: string): Option<Square> {
    var c, d := CharAt(text, 0) as int, CharAt(text, 1) as int - '1' as int;
    var f := if c >= 'a' as int then c - 'a' as int else c - 'A' as int;
    if 0 <= f < 8 && 0 <= d < 8 then Some(8 * d + f) else None
  }

  function SideText(c: Color): string {
    if c == WHITE then "w" else "b"
  }

  function SideOf(c: char): Color {
    if c == 'b' || c == 'B' then BLACK else WHITE
  }

  function NatText(n: nat): string {
    if n < 10 then [DigitChar(n)] else NatText(n / 10) + [DigitChar(n % 10)]
  }

  function IntText(n: int): string {
    if n < 0 then "-" + NatText(-n) else NatText(n)
  }

  /** The digits `strtol` reads. */
  function ReadDigits(text: string, value: int): int {
    if text == "" || DigitValue(text[0]).None? then value
    else ReadDigits(text[1..], value * 10 + DigitValue(text[0]).value)
  }

  /** `strtol` in base ten: an optional sign, then digits. */
  function ReadLong(text: string): int {
    if text != "" && text[0] == '-' then -ReadDigits(text[1..], 0)
    else if text != "" && text[0] == '+' then ReadDigits(text[1..], 0)
    else ReadDigits(text, 0)
  }

  lemma RightsRoundTrip(rights: bv4)
    ensures RightsOf(RightsText(rights)) == rights
    ensures RightsText(rights) != "" && forall i :: 0 <= i < |RightsText(rights)| ==> !IsSpace(RightsText(rights)[i])
  {
    var s := RightsText(rights);
    if s != "-" {
      ReadRights(rights & 1 != 0, rights & 2 != 0, rights & 4 != 0, rights & 8 != 0);
    }
  }

  lemma ReadRights(a: bool, b: bool, c: bool, d: bool)
    ensures RightsOf((if a then "K" else "") + (if b then "Q" else "") + (if c then "k" else "") + (if d then "q" else "")) ==
      (if a then 1 else 0) | (if b then 2 else 0) | (if c then 4 else 0) | (if d then 8 else 0)
  {
    var t := (if c then "k" else "") + (if d then "q" else "");
    assert RightsOf(t) == (if c then 4 else 0) | (if d then 8 else 0) by {
      ReadRight(c, 'k', if d then "q" else "");
    }
    var u := (if b then "Q" else "") + t;
    ReadRight(b, 'Q', t);
    ReadRight(a, 'K', u);
    assert (if a then "K" else "") + (if b then "Q" else "") + (if c then "k" else "") + (if d then "q" else "") ==
      (if a then "K" else "") + u;
  }

  lemma ReadRight(on: bool, c: char, rest: string)
    ensures RightsOf((if on then [c] else "") + rest) == (if on then RightOfChar(c) else 0) | RightsOf(rest)
  {
    if on {
      assert ([c] + rest)[1..] == rest;
    } else {
      assert "" + rest == rest;
    }
  }

  lemma SquareRoundTrip(s: Square)
    ensures SquareOf(SquareText(s)) == Some(s) && |SquareText(s)| == 2
    ensures forall i :: 0 <= i < 2 ==> !IsSpace(SquareText(s)[i])
  {
  }

  lemma {:induction false} DigitsRoundTrip(n: nat, rest: string)
    ensures ReadDigits(NatText(n) + rest, 0) == ReadDigits(rest, n)
    ensures NatText(n) != "" && forall i :: 0 <= i < |NatText(n)| ==> DigitValue(NatText(n)[i]).Some?
  {
    var last := [DigitChar(n % 10)];
    hide ReadDigits, DigitChar, DigitValue, NatText;
    ReadOne(n % 10, rest, n / 10);
    NatTextStep(n);
    if n >= 10 {
      DigitsRoundTrip(n / 10, last + rest);
      Appended(NatText(n / 10), last, rest);
    }
  }

  lemma NatTextStep(n: nat)
    ensures NatText(n) == if n < 10 then [DigitChar(n % 10)] else NatText(n / 10) + [DigitChar(n % 10)]
    ensures n == n / 10 * 10 + n % 10 && (n < 10 ==> n / 10 == 0)
  {
  }

  lemma Appended(a: string, b: string, c: string)
    ensures a + b + c == a + (b + c)
  {
  }

  lemma ReadOne(d: int, rest: string, value: int)
    requires 0 <= d <= 9
    ensures ReadDigits([DigitChar(d)] + rest, value) == ReadDigits(rest, value * 10 + d)
    ensures DigitValue([DigitChar(d)][0]).Some?
  {
    DigitRoundTrip(d);
    assert ([DigitChar(d)] + rest)[1..] == rest;
  }

  lemma LongRoundTrip(n: int)
    ensures ReadLong(IntText(n)) == n
    ensures IntText(n) != "" && forall i :: 0 <= i < |IntText(n)| ==> !IsSpace(IntText(n)[i])
  {
    var text := NatText(Abs(n));
    DigitsRoundTrip(Abs(n), "");
    assert text + "" == text && ("-" + text)[1..] == text;
  }

  predicate IsSpace(c: char) {
    c == ' ' || c == '\t' || c == '\n' || c == '\r'
  }

  // ---- words ----

  function WordOf(text: string): (w: string)
    ensures |w| <= |text| && w == text[..|w|]
  {
    if text == "" || IsSpace(text[0]) then "" else [text[0]] + WordOf(text[1..])
  }

  function Words(text: string): seq<string>
    decreases |text|
  {
    if text == "" then []
    else if IsSpace(text[0]) then Words(text[1..])
    else
      assert |WordOf(text)| > 0;
      [WordOf(text)] + Words(text[|WordOf(text)|..])
  }

  /** The `k`th extraction from the stream; past the end the previous word stays. */
  function Field(words: seq<string>, k: nat): string {
    if words == [] then "" else words[Min(k, |words| - 1)]
  }

  predicate Solid(word: string) {
    word != "" && forall i :: 0 <= i < |word| ==> !IsSpace(word[i])
  }

  lemma {:induction false} WordOfSolid(word: string, rest: string)
    requires (forall i :: 0 <= i < |word| ==> !IsSpace(word[i])) && (rest == "" || rest[0] == ' ')
    ensures WordOf(word + rest) == word
  {
    if word == "" {
      assert "" + rest == rest;
    } else {
      WordOfSolid(word[1..], rest);
      assert (word + rest)[1..] == word[1..] + rest;
    }
  }

  lemma WordsSplit(word: string, rest: string)
    requires Solid(word)
    ensures Words(word + " " + rest) == [word] + Words(rest) && Words(word) == [word]
  {
    WordOfSolid(word, " " + rest);
    WordOfSolid(word, "");
    assert word + "" == word && word + " " + rest == word + (" " + rest);
    assert (word + (" " + rest))[|word|..] == " " + rest && (" " + rest)[1..] == rest;
    assert word[|word|..] == "";
  }

  // ---- whole positions ----

  function EpText(ep: Option<Square>): string {
    if ep.Some? then SquareText(ep.value) else "-"
  }

  /** The six fields of a position. */
  function Fields(p: Pos): seq<string>
    requires p.history != []
  {
    [PlacementText(p.cells, 7), SideText(p.stm), RightsText(p.Top().rights), EpText(p.Top().ep),
     IntText(p.Top().halfmoves), IntText(p.fullmoves)]
  }

  function Join(fields: seq<string>): string
    requires fields != []
  {
    if |fields| == 1 then fields[0] else fields[0] + " " + Join(fields[1..])
  }

  /** `fen`. */
  function Text(p: Pos): string
    requires p.history != []
  {
    Join(Fields(p))
  }

  /** An en-passant square stays only if the pawn that crossed it stands behind it. */
  function EpChecked(cells: Cells, stm: Color, ep: Option<Square>): Option<Square> {
    if ep.Some? && Holds(cells, Behind(ep.value, stm), PAWN, Other(stm)) then ep else None
  }

  /** `from_fen`: a position with one record, whose key is computed from scratch. */
  function Parsed(z: Randoms, text: string): Option<Pos> {
    ParsedWords(z, Words(text))
  }

  function ParsedWords(z: Randoms, words: seq<string>): Option<Pos> {
    var board := Scan(Field(words, 0), A8, map[]);
    if board.None? then None
    else
      var stm := SideOf(CharAt(Field(words, 1), 0));
      var rights := RightsOf(Field(words, 2));
      var ep := EpChecked(board.value, stm, SquareOf(Field(words, 3)));
      Some(Pos(board.value, stm, ReadLong(Field(words, 5)),
               [State(rights, ep, None, None, Untyped, FullHash(z, board.value, stm, rights, ep), ReadLong(Field(words, 4)))]))
  }

  lemma {:induction false} WordsJoin(fields: seq<string>)
    requires fields != [] && forall i :: 0 <= i < |fields| ==> Solid(fields[i])
    ensures Words(Join(fields)) == fields
  {
    hide Solid, Words;
    WordsSplit(fields[0], if |fields| == 1 then "" else Join(fields[1..]));
    if |fields| > 1 {
      WordsJoin(fields[1..]);
    }
  }

  lemma {:induction false} RankTextSolid(cells: Cells, rank: int, file: int, empty: int)
    requires 0 <= rank < 8 && 0 <= file <= 8 && 0 <= empty <= file
    ensures (file > 0 && empty > 0) || file < 8 ==> RankText(cells, rank, file, empty) != ""
    ensures forall c :: c in RankText(cells, rank, file, empty) ==> !IsSpace(c)
    decreases 8 - file
  {
    if empty > 0 {
      DigitRoundTrip(empty);
    }
    if file < 8 {
      if 8 * rank + file in cells {
        PieceCharRoundTrip(cells[8 * rank + file]);
        RankTextSolid(cells, rank, file + 1, 0);
      } else {
        RankTextSolid(cells, rank, file + 1, empty + 1);
      }
    }
    hide IsSpace, PieceChar, DigitChar;
  }

  lemma {:induction false} PlacementSolid(cells: Cells, rank: int)
    requires 0 <= rank < 8
    ensures Solid(PlacementText(cells, rank))
  {
    RankTextSolid(cells, rank, 0, 0);
    hide RankText;
    if rank > 0 {
      PlacementSolid(cells, rank - 1);
    }
  }

  lemma FieldsSolid(p: Pos)
    requires p.history != []
    ensures forall i :: 0 <= i < 6 ==> Solid(Fields(p)[i])
  {
    PlacementSolid(p.cells, 7);
    RightsRoundTrip(p.Top().rights);
    if p.Top().ep.Some? {
      SquareRoundTrip(p.Top().ep.value);
    }
    LongRoundTrip(p.Top().halfmoves);
    LongRoundTrip(p.fullmoves);
    hide PlacementText, RightsText, SquareText, IntText;
  }

  /** Reading back a printed position gives the same board, side, rights, en-passant square,
      counters and key, for every well-formed position whose key is right. */
  lemma TextRoundTrip(z: Randoms, p: Pos)
    requires WellFormed(p) && HashOk(z, p)
    ensures Parsed(z, Text(p)) ==
      Some(p.(history := [State(p.Top().rights, p.Top().ep, None, None, Untyped, p.Top().hash, p.Top().halfmoves)]))
  {
    assert p.history != [];
    hide Fields, Join, Words, ParsedWords, WellFormed, FullHash, Solid;
    FieldsSolid(p);
    FieldsLength(p);
    WordsJoin(Fields(p));
    FieldsRoundTrip(z, p);
  }

  lemma FieldsLength(p: Pos)
    requires p.history != []
    ensures |Fields(p)| == 6
  {
  }

  lemma FieldsRoundTrip(z: Randoms, p: Pos)
    requires WellFormed(p) && HashOk(z, p)
    ensures ParsedWords(z, Fields(p)) ==
      Some(p.(history := [State(p.Top().rights, p.Top().ep, None, None, Untyped, p.Top().hash, p.Top().halfmoves)]))
  {
    SeenEnds(p.cells);
    ScanPlacement(p.cells, 7);
    RightsRoundTrip(p.Top().rights);
    EpRoundTrip(p.cells, p.stm, p.Top().ep);
    LongRoundTrip(p.Top().halfmoves);
    LongRoundTrip(p.fullmoves);
    FieldsAre(p);
    hide PlacementText, RightsText, EpText, IntText, Scan, Seen, RightsOf, SquareOf, ReadLong, EpChecked, FullHash, OneKing, RightsHome, PawnsInside, EpHome;
    hide Fields, Field, SideOf, CharAt, SideText;
  }

  lemma FieldsAre(p: Pos)
    requires p.history != []
    ensures Field(Fields(p), 0) == PlacementText(p.cells, 7) && SideOf(CharAt(Field(Fields(p), 1), 0)) == p.stm
    ensures Field(Fields(p), 2) == RightsText(p.Top().rights) && Field(Fields(p), 3) == EpText(p.Top().ep)
    ensures Field(Fields(p), 4) == IntText(p.Top().halfmoves) && Field(Fields(p), 5) == IntText(p.fullmoves)
  {
    hide PlacementText, RightsText, EpText, IntText;
  }

  lemma EpRoundTrip(cells: Cells, stm: Color, ep: Option<Square>)
    requires EpHome(cells, stm, ep)
    ensures EpChecked(cells, stm, SquareOf(EpText(ep))) == ep
  {
    if ep.Some? {
      SquareRoundTrip(ep.value);
    }
  }

  /** Whatever text a root is read from: after any run of moves that can be made, null moves and
      unmakes, the stored key is the key from scratch. */
  lemma KeyFromAnyText(z: Randoms, text: string, ops: seq<Op>, q: Pos, end: nat)
    requires Parsed(z, text).Some? && AnyRuns(z, Parsed(z, text).value, 0, ops, q, end)
    ensures q.history != [] && HashOk(z, q) && (end == 0 ==> q == Parsed(z, text).value)
  {
    ParsedKey(z, text);
    hide Parsed, HashOk, AnyRuns;
    KeyAlongAnyRun(z, [Parsed(z, text).value], ops, q, end);
  }

  /** A position read from any text has an en-passant square only with an enemy pawn behind it. */
  lemma ParsedEp(z: Randoms, text: string)
    requires Parsed(z, text).Some?
    ensures Parsed(z, text).value.history != []
    ensures
      var p := Parsed(z, text).value;
      p.Top().ep.Some? ==> Holds(p.cells, Behind(p.Top().ep.value, p.stm), PAWN, Other(p.stm))
  {
    hide Scan, SideOf, RightsOf, SquareOf, ReadLong, Field, Words, FullHash;
  }

  lemma ParsedKey(z: Randoms, text: string)
    requires Parsed(z, text).Some?
    ensures Parsed(z, text).value.history != [] && HashOk(z, Parsed(z, text).value)
  {
    hide Scan, SideOf, RightsOf, SquareOf, ReadLong, Field, Words, FullHash;
  }

  // ---- a text no game leads to ----

  function BlockedRoot(z: Randoms): Pos {
    Pos(BLOCKED_BY_EP, WHITE, 1, [State(0, Some(43), None, None, Untyped, FullHash(z, BLOCKED_BY_EP, WHITE, 0, Some(43)), 0)])
  }

  lemma SoundFrom(p: Pos, white: Square, black: Square)
    requires p.history != [] && IsKing(p.cells, WHITE, white) && IsKing(p.cells, BLACK, black)
    requires RightsHome(p.cells, p.Top().rights) && EpHome(p.cells, p.stm, p.Top().ep) && PawnsInside(p.cells)
    requires p.stm == WHITE && !Attacked(p.cells, black, WHITE)
    ensures Sound(p) && KingSquare(p.cells, WHITE) == white
  {
    hide RightsHome, EpHome, PawnsInside, Attacked;
    assert IsKing(p.cells, WHITE, KingSquare(p.cells, WHITE)) && IsKing(p.cells, BLACK, KingSquare(p.cells, BLACK));
  }

  lemma BlockedPawnsInside()
    ensures PawnsInside(BLOCKED_BY_EP)
  {
  }

  lemma BlockedRootIsSound(z: Randoms)
    ensures Sound(BlockedRoot(z)) && HashOk(z, BlockedRoot(z)) && KingSquare(BLOCKED_BY_EP, WHITE) == 40
  {
    hide PseudoLegal, SafeAfter, InLegalList, Attacked, PawnsInside, EpHome, FullHash, IsKing, Sound, KingSquare;
    EpBlockIsMissed();
    FarKingIsSafe();
    BlockedPawnsInside();
    SoundFrom(BlockedRoot(z), 40, 7);
  }

  lemma FarKingIsSafe()
    ensures !Attacked(BLOCKED_BY_EP, 7, WHITE)
  {
    UnattackedMeaning(BLOCKED_BY_EP, 7, WHITE);
    assert !Attacks(Piece(KING, WHITE), 40, 7, BLOCKED_BY_EP.Keys) && !Attacks(Piece(PAWN, WHITE), 36, 7, BLOCKED_BY_EP.Keys);
    hide Attacks;
    assert forall s :: Owns(BLOCKED_BY_EP, WHITE, s) ==> s == 40 || s == 36;
  }

  /** A text can describe a sound position, a root of games, whose legal move list lacks a safe
      pseudo-legal move. */
  lemma OmissionFromText(z: Randoms)
    ensures exists text: string, m: Move ::
      Parsed(z, text).Some? && Line(z, [Parsed(z, text).value]) && Safe(Parsed(z, text).value, m) && !Legal(Parsed(z, text).value, m)
  {
    var p, m := BlockedRoot(z), BLOCKING_CAPTURE;
    BlockedRootIsSound(z);
    EpBlockIsMissed();
    hide PseudoLegal, SafeAfter, InLegalList, FullHash, InCheck;
    TextRoundTrip(z, p);
    assert Safe(p, m) && !Legal(p, m) && Line(z, [p]);
    hide Safe, Legal, Line, Parsed, Text;
    assert Parsed(z, Text(p)) == Some(p);
  }

  // ---- the printer and the parser ----

  /** `fen`: ranks from the eighth down, runs of empty squares counted. */
  method Print(pos: Position) returns (s: string)
    requires pos.Valid()
    ensures s == Text(pos.View())
  {
    hide PlacementText, SideText, RightsText, IntText, SquareText, Text;
    TextIs(pos.View());
    s := PrintBoard(pos);
    var top := pos.history[pos.ply];
    var ep := if top.ep.Some? then SquareText(top.ep.value) else "-";
    s := s + " " + SideText(pos.stm) + " " + RightsText(top.rights) + " " + ep + " " +
         IntText(top.halfmoves) + " " + IntText(pos.fullmoves);
  }

  lemma TextIs(p: Pos)
    requires p.history != []
    ensures Text(p) == PlacementText(p.cells, 7) + " " + SideText(p.stm) + " " + RightsText(p.Top().rights) + " " +
      EpText(p.Top().ep) + " " + IntText(p.Top().halfmoves) + " " + IntText(p.fullmoves)
  {
    hide PlacementText, SideText, RightsText, IntText, EpText;
    JoinSix(PlacementText(p.cells, 7), SideText(p.stm), RightsText(p.Top().rights), EpText(p.Top().ep),
            IntText(p.Top().halfmoves), IntText(p.fullmoves));
  }

  lemma JoinSix(a: string, b: string, c: string, d: string, e: string, f: string)
    ensures Join([a, b, c, d, e, f]) == a + " " + b + " " + c + " " + d + " " + e + " " + f
  {
    assert [a, b, c, d, e, f][1..] == [b, c, d, e, f] && [b, c, d, e, f][1..] == [c, d, e, f];
    assert [c, d, e, f][1..] == [d, e, f] && [d, e, f][1..] == [e, f] && [e, f][1..] == [f];
    var t := e + " " + f;
    assert Join([e, f]) == t;
    assert Join([d, e, f]) == d + " " + t;
    assert Join([c, d, e, f]) == c + " " + (d + " " + t);
    assert Join([b, c, d, e, f]) == b + " " + (c + " " + (d + " " + t));
  }

  method PrintBoard(pos: Position) returns (s: string)
    requires pos.Valid()
    ensures s == PlacementText(pos.cells, 7)
  {
    hide RankText, PlacementText;
    s := "";
    var rank := 7;
    while rank >= 0
      invariant -1 <= rank <= 7
      invariant PlacementText(pos.cells, 7) == s + if rank >= 0 then PlacementText(pos.cells, rank) else ""
      decreases rank
    {
      PlacementStep(pos.cells, rank);
      var line := PrintRank(pos, rank);
      s := s + line;
      if rank != 0 {
        s := s + "/";
      }
      rank := rank - 1;
    }
  }

  lemma RankTextPiece(cells: Cells, rank: int, file: int, empty: int)
    requires 0 <= rank < 8 && 0 <= file < 8 && 0 <= empty <= file && 8 * rank + file in cells
    ensures RankText(cells, rank, file, empty) ==
      Pending(empty) + [PieceChar(cells[8 * rank + file])] + RankText(cells, rank, file + 1, 0)
  {
  }

  method PrintRank(pos: Position, rank: int) returns (s: string)
    requires pos.Valid() && 0 <= rank < 8
    ensures s == RankText(pos.cells, rank, 0, 0)
  {
    hide RankText, PieceChar;
    s := "";
    var empty := 0;
    for file := 0 to 8
      invariant 0 <= empty <= file
      invariant RankText(pos.cells, rank, 0, 0) == s + RankText(pos.cells, rank, file, empty)
    {
      var kind := pos.PieceTypeOn(8 * rank + file);
      var color := pos.ColorOf(8 * rank + file);
      RankTextEnds(pos.cells, rank, file, empty);
      if kind.Some? {
        RankTextPiece(pos.cells, rank, file, empty);
        if empty > 0 {
          s := s + [DigitChar(empty)];
          empty := 0;
        }
        s := s + [PieceChar(Piece(kind.value, color.value))];
      } else {
        empty := empty + 1;
      }
    }
    RankTextEnds(pos.cells, rank, 8, empty);
    if empty > 0 {
      s := s + [DigitChar(empty)];
    }
  }

  /** The parser's walk over the placement field. */
  method PutAll(pos: Position, text: string) returns (ok: bool)
    requires pos.Valid() && pos.cells == map[]
    modifies pos`cells, pos.typeBb, pos.colorBb
    ensures pos.Valid()
    ensures ok <==> Scan(text, A8, map[]).Some?
    ensures ok ==> pos.cells == Scan(text, A8, map[]).value
  {
    var square: int := A8;
    for i := 0 to |text|
      invariant pos.Valid()
      invariant Scan(text, A8, map[]) == Scan(text[i..], square, pos.cells)
    {
      var c := text[i];
      assert text[i..][0] == c && text[i..][1..] == text[i + 1..];
      if '1' <= c <= '9' {
        square := square + (c as int - '0' as int);
      } else if c == '/' {
        square := square - 16;
      } else {
        var piece := PieceOfChar(c);
        if piece.Some? {
          if !(0 <= square < 64) {
            return false;
          }
          var kind := pos.PieceTypeOn(square);
          var color := pos.ColorOf(square);
          if kind.None? {
            pos.PutPiece(square, piece.value.kind, piece.value.color);
          } else if kind != Some(piece.value.kind) || color != Some(piece.value.color) {
            return false;
          } else {
            assert pos.cells[square := piece.value] == pos.cells;
          }
        }
        square := square + 1;
      }
    }
    return true;
  }

  /** `CastlingRights::from`. */
  method ReadRightsField(text: string) returns (rights: bv4)
    ensures rights == RightsOf(text)
  {
    rights := 0;
    for i := 0 to |text|
      invariant RightsOf(text) == rights | RightsOf(text[i..])
    {
      assert text[i..][0] == text[i] && text[i..][1..] == text[i + 1..];
      rights := rights | RightOfChar(text[i]);
    }
  }

  /** `from_fen`. */
  method Parse(z: Randoms, text: string) returns (r: Option<Position>)
    ensures r.Some? <==> Parsed(z, text).Some?
    ensures r.Some? ==> fresh(r.value) && r.value.Valid() && r.value.z == z && r.value.View() == Parsed(z, text).value
  {
    var words := Words(text);
    var pos := new Position.Empty(z);
    var ok := PutAll(pos, Field(words, 0));
    if !ok {
      return None;
    }
    hide Scan, SideOf, RightsOf, SquareOf, ReadLong, Field, Words, FullHash;
    var rights := ReadRightsField(Field(words, 2));
    var stm, half, full := SideOf(CharAt(Field(words, 1), 0)), ReadLong(Field(words, 4)), ReadLong(Field(words, 5));
    var ep := CheckEp(pos, stm, SquareOf(Field(words, 3)));
    Finish(pos, stm, rights, ep, half, full);
    return Some(pos);
  }

  method CheckEp(pos: Position, stm: Color, ep: Option<Square>) returns (r: Option<Square>)
    requires pos.Valid()
    ensures r == EpChecked(pos.cells, stm, ep)
  {
    if ep.None? {
      return None;
    }
    var pushRank := if stm == WHITE then Rank(ep.value) - 1 else Rank(ep.value) + 1;
    if pushRank < 0 || pushRank > 7 {
      return None;
    }
    var square := pushRank * 8 + File(ep.value);
    var kind := pos.PieceTypeOn(square);
    var color := pos.ColorOf(square);
    if kind != Some(PAWN) || color == Some(stm) {
      return None;
    }
    return ep;
  }

  method Finish(pos: Position, stm: Color, rights: bv4, ep: Option<Square>, half: int, full: int)
    requires pos.Valid() && pos.ply == 0
    modifies pos`stm, pos`fullmoves, pos`history
    ensures pos.Valid()
    ensures pos.View() == Pos(pos.cells, stm, full,
      [State(rights, ep, None, None, Untyped, FullHash(pos.z, pos.cells, stm, rights, ep), half)])
  {
    pos.stm := stm;
    pos.fullmoves := full;
    var record := State(rights, ep, None, None, Untyped, {}, half);
    pos.history := [record];
    var hash := pos.CalculateHash();
    pos.history := [record.(hash := hash)];
  }
}
