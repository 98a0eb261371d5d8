/** The vocabulary shared by every module: squares, pieces, moves and the option type.
    Squares, colours and piece types are the small integers the engine uses as array indices. */
module Types {
  type Square = s: int | 0 <= s < 64
  type Color = c: int | 0 <= c < 2
  type PieceType = p: int | 0 <= p < 6

  /** A 64-bit word is the set of its one bits; as a board mask, a set of squares. */
  type Word = set<Square>
  type Bitboard = Word

  const WHITE: Color := 0
  const BLACK: Color := 1

  const PAWN: PieceType := 0
  const KNIGHT: PieceType := 1
  const BISHOP: PieceType := 2
  const ROOK: PieceType := 3
  const QUEEN: PieceType := 4
  const KING: PieceType := 5

  const A1: Square := 0
  const C1: Square := 2
  const D1: Square := 3
  const E1: Square := 4
  const F1: Square := 5
  const G1: Square := 6
  const H1: Square := 7
  const A8: Square := 56
  const C8: Square := 58
  const D8: Square := 59
  const E8: Square := 60
  const F8: Square := 61
  const G8: Square := 62
  const H8: Square := 63

  /** Scores beyond this are mates. */
  const MAX_NON_MATE: int := 29500

  datatype Option<+T> = None | Some(value: T)

  datatype Piece = Piece(kind: PieceType, color: Color)

  /** A board as a mailbox: the occupied squares and what stands on them. */
  type Cells = map<Square, Piece>

  datatype MoveType =
    | Untyped
    | Normal
    | Castling
    | EnPassant
    | Promotion
    | DoublePush
    | Capture
    | CapturePromotion

  /** `promotion` holds the raw promotion bits of an encoded move. */
  datatype Move = Move(from: Square, to: Square, promotion: PieceType, kind: MoveType) {
    /** Pawn and king bits both mean "no promotion". */
    function PromotionType(): Option<PieceType> {
      if promotion == PAWN || promotion == KING then None else Some(promotion)
    }
  }

  /** `is_capture_move`, by the kind. */
  predicate IsCapture(m: Move) {
    m.kind == Capture || m.kind == CapturePromotion || m.kind == EnPassant
  }

  function Other(c: Color): Color {
    1 - c
  }

  function Abs(x: int): int {
    if x < 0 then -x else x
  }

  function Min(x: int, y: int): int {
    if x < y then x else y
  }

  function Max(x: int, y: int): int {
    if x < y then y else x
  }

  /** Bitwise exclusive-or. */
  function Xor(a: Word, b: Word): Word {
    (a - b) + (b - a)
  }

  lemma XorLaws(a: Word, b: Word, c: Word)
    ensures Xor(a, b) == Xor(b, a)
    ensures Xor(Xor(a, b), c) == Xor(a, Xor(b, c))
    ensures Xor(a, Xor(b, c)) == Xor(b, Xor(a, c))
    ensures Xor(a, Xor(a, c)) == c
    ensures Xor(a, {}) == a && Xor({}, a) == a && Xor(a, a) == {}
  {
  }

  function Put(cells: Cells, s: Square, p: Piece): Cells {
    cells[s := p]
  }

  function Remove(cells: Cells, s: Square): Cells {
    cells - {s}
  }

  /** The squares held by one colour. */
  function Side(cells: Cells, c: Color): Bitboard {
    set s | s in cells && cells[s].color == c
  }

  /** The squares held by one piece type, either colour. */
  function OfKind(cells: Cells, k: PieceType): Bitboard {
    set s | s in cells && cells[s].kind == k
  }

  lemma LowestExists(bb: Bitboard)
    requires bb != {}
    ensures exists s :: s in bb && forall t :: t in bb ==> s <= t
  {
    var x :| x in bb;
    if y :| y in bb && y < x {
      var smaller := set t | t in bb && t < x;
      assert y in smaller && x !in smaller;
      LowestExists(smaller);
      var s :| s in smaller && forall t :: t in smaller ==> s <= t;
      forall t | t in bb ensures s <= t {
        if t < x {
          assert t in smaller;
        }
      }
    }
  }

  /** Index of the least significant bit. */
  function Lowest(bb: Bitboard): (s: Square)
    requires bb != {}
    ensures s in bb && forall t :: t in bb ==> s <= t
  {
    LowestExists(bb);
    var s :| s in bb && forall t :: t in bb ==> s <= t;
    s
  }
}
