/** The move generators: bitboard loops appending to a caller's list. Each appends exactly the
    moves its specification names, each once, and the filtered list is exactly the legal moves. */
module Generators {
  import opened Types
  import opened Lookups
  import opened Rules
  import opened Legality
  import opened Pins
  import opened Evasions
  import opened Positions
  import opened Repetition
  import opened Draws
  import opened Runs

  // ---- lists that hold each move once ----

  predicate NoRepeats(list: seq<Move>) {
    forall i, j :: 0 <= i < j < |list| ==> list[i] != list[j]
  }

  lemma Joins(a: seq<Move>, b: seq<Move>)
    requires NoRepeats(a) && NoRepeats(b) && forall m :: m in a ==> m !in b
    ensures NoRepeats(a + b) && forall m :: m in a + b <==> m in a || m in b
    ensures forall before: seq<Move> :: before + a + b == before + (a + b)
  {
    forall i, j | 0 <= i < j < |a + b| ensures (a + b)[i] != (a + b)[j] {
      if i < |a| <= j {
        assert a[i] in a && b[j - |a|] in b;
      }
    }
  }

  lemma Regroup(before: seq<Move>, a: seq<Move>, b: seq<Move>, d: seq<Move>)
    ensures before + a + b + d == before + (a + b + d)
  {
  }

  /** The four promotions of one pawn step, in the order they are tried. */
  function FourPromotions(from: Square, to: Square, kind: MoveType): (list: seq<Move>)
    ensures NoRepeats(list) && forall m :: m in list <==> m.from == from && m.to == to && m.kind == kind && Promotes(m)
  {
    [Move(from, to, QUEEN, kind), Move(from, to, KNIGHT, kind), Move(from, to, ROOK, kind), Move(from, to, BISHOP, kind)]
  }

  predicate CapturesFirst(list: seq<Move>) {
    forall i, j :: 0 <= i < j < |list| && IsCapture(list[j]) ==> IsCapture(list[i])
  }

  lemma JoinsCaptures(a: seq<Move>, b: seq<Move>)
    requires NoRepeats(a) && NoRepeats(b) && (forall m :: m in a ==> IsCapture(m)) && forall m :: m in b ==> !IsCapture(m)
    ensures NoRepeats(a + b) && CapturesFirst(a + b) && forall m :: m in a + b <==> m in a || m in b
  {
    Joins(a, b);
  }

  /** A reusable, caller-owned move list. */
  class MoveList {
    var items: seq<Move>

    constructor ()
      ensures items == []
    {
      items := [];
    }

    method Clear()
      modifies this
      ensures items == []
    {
      items := [];
    }

    method Add(m: Move)
      modifies this
      ensures items == old(items) + [m]
    {
      items := items + [m];
    }

    method AddPromotions(from: Square, to: Square, kind: MoveType)
      modifies this
      ensures items == old(items) + FourPromotions(from, to, kind)
    {
      items := items + FourPromotions(from, to, kind);
    }

    /** One piece to each square of a board. */
    method AddTargets(from: Square, targets: Bitboard, kind: MoveType) returns (ghost added: seq<Move>)
      modifies this
      ensures items == old(items) + added && NoRepeats(added)
      ensures forall m :: m in added <==> (m.from == from && m.to in targets && m.promotion == PAWN && m.kind == kind)
    {
      var left := targets;
      added := [];
      while left != {}
        invariant left <= targets
        invariant items == old(items) + added && NoRepeats(added)
        invariant forall m :: m in added <==> (m.from == from && m.to in targets - left && m.promotion == PAWN && m.kind == kind)
        decreases left
      {
        var to := Lowest(left);
        left := left - {to};
        Add(Move(from, to, PAWN, kind));
        Joins(added, [Move(from, to, PAWN, kind)]);
        added := added + [Move(from, to, PAWN, kind)];
      }
    }

    /** Each piece of a board to one square. */
    method AddSources(sources: Bitboard, to: Square, kind: MoveType) returns (ghost added: seq<Move>)
      modifies this
      ensures items == old(items) + added && NoRepeats(added)
      ensures forall m :: m in added <==> (m.from in sources && m.to == to && m.promotion == PAWN && m.kind == kind)
    {
      var left := sources;
      added := [];
      while left != {}
        invariant left <= sources
        invariant items == old(items) + added && NoRepeats(added)
        invariant forall m :: m in added <==> (m.from in sources - left && m.to == to && m.promotion == PAWN && m.kind == kind)
        decreases left
      {
        var from := Lowest(left);
        left := left - {from};
        Add(Move(from, to, PAWN, kind));
        Joins(added, [Move(from, to, PAWN, kind)]);
        added := added + [Move(from, to, PAWN, kind)];
      }
    }

    method AddSourcePromotions(sources: Bitboard, to: Square, kind: MoveType) returns (ghost added: seq<Move>)
      modifies this
      ensures items == old(items) + added && NoRepeats(added)
      ensures forall m :: m in added <==> (m.from in sources && m.to == to && Promotes(m) && m.kind == kind)
    {
      var left := sources;
      added := [];
      while left != {}
        invariant left <= sources
        invariant items == old(items) + added && NoRepeats(added)
        invariant forall m :: m in added <==> (m.from in sources - left && m.to == to && Promotes(m) && m.kind == kind)
        decreases left
      {
        var from := Lowest(left);
        left := left - {from};
        AddPromotions(from, to, kind);
        Joins(added, FourPromotions(from, to, kind));
        added := added + FourPromotions(from, to, kind);
      }
    }

    method AddTargetPromotions(from: Square, targets: Bitboard, kind: MoveType) returns (ghost added: seq<Move>)
      modifies this
      ensures items == old(items) + added && NoRepeats(added)
      ensures forall m :: m in added <==> (m.from == from && m.to in targets && Promotes(m) && m.kind == kind)
    {
      var left := targets;
      added := [];
      while left != {}
        invariant left <= targets
        invariant items == old(items) + added && NoRepeats(added)
        invariant forall m :: m in added <==> (m.from == from && m.to in targets - left && Promotes(m) && m.kind == kind)
        decreases left
      {
        var to := Lowest(left);
        left := left - {to};
        AddPromotions(from, to, kind);
        Joins(added, FourPromotions(from, to, kind));
        added := added + FourPromotions(from, to, kind);
      }
    }
  }

  // ---- boards ----

  /** `relative_rank_mask`. */
  function RankMask(r: int, c: Color): Bitboard {
    set s: Square | OnRank(s, c, r)
  }

  /** `pawn_shift` of a whole board; squares shifted off it are lost. */
  function ShiftBoard(bb: Bitboard, c: Color): Bitboard {
    set t: Square | 0 <= PawnShift(t, Other(c)) < 64 && PawnShift(t, Other(c)) in bb
  }

  /** Pawns of `c`. */
  function PawnsOf(cells: Cells, c: Color): Bitboard {
    OfKind(cells, PAWN) * Side(cells, c)
  }

  // ---- what each generator makes ----

  predicate QuietPromotion(cells: Cells, c: Color, m: Move) {
    m.kind == Promotion && Promotes(m) && Pushes(cells, c, m) && OnRank(m.from, c, 6)
  }

  predicate TakesAndPromotes(cells: Cells, c: Color, m: Move) {
    m.kind == CapturePromotion && Promotes(m) && LastRankPawn(cells, c, m.from) && Reaches(cells, c, m) && Owns(cells, Other(c), m.to)
  }

  predicate SinglePush(cells: Cells, c: Color, m: Move) {
    m.kind == Normal && m.promotion == PAWN && Pushes(cells, c, m) && !OnRank(m.from, c, 6)
  }

  predicate TwoSteps(cells: Cells, c: Color, m: Move) {
    && m.kind == DoublePush && m.promotion == PAWN && Holds(cells, m.from, PAWN, c) && OnRank(m.from, c, 1)
    && PawnShift(m.from, c) !in cells && m.to == (if c == WHITE then m.from + 16 else m.from - 16) && m.to !in cells
  }

  predicate PawnTakes(cells: Cells, c: Color, m: Move) {
    && m.kind == Capture && m.promotion == PAWN && Holds(cells, m.from, PAWN, c) && !OnRank(m.from, c, 6)
    && Reaches(cells, c, m) && Owns(cells, Other(c), m.to)
  }

  predicate TakesEnPassant(cells: Cells, c: Color, ep: Option<Square>, m: Move) {
    m.kind == EnPassant && m.promotion == PAWN && Holds(cells, m.from, PAWN, c) && ep == Some(m.to) && Reaches(cells, c, m)
  }

  predicate PieceQuiet(cells: Cells, c: Color, k: PieceType, m: Move) {
    m.kind == Normal && m.promotion == PAWN && Holds(cells, m.from, k, c) && Reaches(cells, c, m) && m.to !in cells
  }

  predicate PieceTakes(cells: Cells, c: Color, k: PieceType, m: Move) {
    m.kind == Capture && m.promotion == PAWN && Holds(cells, m.from, k, c) && Reaches(cells, c, m) && Owns(cells, Other(c), m.to)
  }

  predicate Castles(cells: Cells, c: Color, rights: bv4, m: Move) {
    m.kind == Castling && m.promotion == PAWN && CanCastle(cells, c, rights, m.from, m.to)
  }

  /** The generators' cases together are the pseudo-legal moves. */
  lemma CasesCover(cells: Cells, c: Color, rights: bv4, ep: Option<Square>, m: Move)
    ensures PseudoLegal(cells, c, rights, ep, m) <==>
      || QuietPromotion(cells, c, m) || TakesAndPromotes(cells, c, m) || SinglePush(cells, c, m) || TwoSteps(cells, c, m)
      || PawnTakes(cells, c, m) || TakesEnPassant(cells, c, ep, m) || Castles(cells, c, rights, m)
      || exists k: PieceType :: k != PAWN && (PieceQuiet(cells, c, k, m) || PieceTakes(cells, c, k, m))
  {
    hide Attacks, CanCastle, Rank;
    if m.from in cells && cells[m.from].kind != PAWN {
      var k := cells[m.from].kind;
      assert PieceQuiet(cells, c, k, m) || PieceTakes(cells, c, k, m) || !(m.kind == Normal || m.kind == Capture) || !PseudoLegal(cells, c, rights, ep, m);
    }
  }

  /** The cases do not overlap: kind and moving piece tell them apart. */
  lemma CasesApart(cells: Cells, c: Color, rights: bv4, ep: Option<Square>)
    ensures forall m :: QuietPromotion(cells, c, m) ==> m.kind == Promotion
    ensures forall m :: TakesAndPromotes(cells, c, m) ==> m.kind == CapturePromotion
    ensures forall m :: TwoSteps(cells, c, m) ==> m.kind == DoublePush
    ensures forall m :: TakesEnPassant(cells, c, ep, m) ==> m.kind == EnPassant
    ensures forall m :: Castles(cells, c, rights, m) ==> m.kind == Castling
    ensures forall m :: SinglePush(cells, c, m) ==> m.kind == Normal && m.from in cells && cells[m.from].kind == PAWN
    ensures forall m :: PawnTakes(cells, c, m) ==> m.kind == Capture && m.from in cells && cells[m.from].kind == PAWN
    ensures forall k, m :: PieceQuiet(cells, c, k, m) ==> m.kind == Normal && m.from in cells && cells[m.from].kind == k
    ensures forall k, m :: PieceTakes(cells, c, k, m) ==> m.kind == Capture && m.from in cells && cells[m.from].kind == k
  {
    hide Attacks, CanCastle, Rank;
  }

  // ---- the generators ----

  lemma BoardOf(cells: Cells, k: PieceType, c: Color, s: Square)
    ensures s in OfKind(cells, k) * Side(cells, c) <==> Holds(cells, s, k, c)
  {
  }

  /** Squares a pawn of `c` standing on `mask` can step to. */
  function PushTargets(cells: Cells, c: Color, mask: Bitboard): Bitboard {
    ShiftBoard(PawnsOf(cells, c) * mask, c) - cells.Keys
  }

  lemma PushTargetsMeaning(cells: Cells, c: Color, mask: Bitboard, from: Square, to: Square)
    ensures PawnShift(to, Other(c)) == from && to in PushTargets(cells, c, mask) <==>
      Holds(cells, from, PAWN, c) && from in mask && to == PawnShift(from, c) && to !in cells
  {
    BoardOf(cells, PAWN, c, from);
  }

  /** Every target pawn step with its four promotions. */
  method AddShiftedPromotions(ml: MoveList, targets: Bitboard, c: Color) returns (ghost added: seq<Move>)
    requires forall t :: t in targets ==> 0 <= PawnShift(t, Other(c)) < 64
    modifies ml
    ensures ml.items == old(ml.items) + added && NoRepeats(added)
    ensures forall m :: m in added <==> (m.to in targets && m.from == PawnShift(m.to, Other(c)) && Promotes(m) && m.kind == Promotion)
  {
    var left := targets;
    added := [];
    while left != {}
      invariant left <= targets
      invariant ml.items == old(ml.items) + added && NoRepeats(added)
      invariant forall m :: m in added <==> (m.to in targets - left && m.from == PawnShift(m.to, Other(c)) && Promotes(m) && m.kind == Promotion)
      decreases left
    {
      var to := Lowest(left);
      left := left - {to};
      ml.AddPromotions(PawnShift(to, Other(c)), to, Promotion);
      Joins(added, FourPromotions(PawnShift(to, Other(c)), to, Promotion));
      added := added + FourPromotions(PawnShift(to, Other(c)), to, Promotion);
    }
  }

  /** Every target with the square `steps` pawn steps back. */
  method AddShifted(ml: MoveList, targets: Bitboard, c: Color, steps: int, kind: MoveType) returns (ghost added: seq<Move>)
    requires forall t :: t in targets ==> 0 <= t + steps * PawnShift(0, Other(c)) < 64
    modifies ml
    ensures ml.items == old(ml.items) + added && NoRepeats(added)
    ensures forall m :: m in added <==> (m.to in targets && m.from == m.to + steps * PawnShift(0, Other(c)) && m.promotion == PAWN && m.kind == kind)
  {
    var left := targets;
    added := [];
    while left != {}
      invariant left <= targets
      invariant ml.items == old(ml.items) + added && NoRepeats(added)
      invariant forall m :: m in added <==> (m.to in targets - left && m.from == m.to + steps * PawnShift(0, Other(c)) && m.promotion == PAWN && m.kind == kind)
      decreases left
    {
      var to := Lowest(left);
      left := left - {to};
      ml.Add(Move(to + steps * PawnShift(0, Other(c)), to, PAWN, kind));
      Joins(added, [Move(to + steps * PawnShift(0, Other(c)), to, PAWN, kind)]);
      added := added + [Move(to + steps * PawnShift(0, Other(c)), to, PAWN, kind)];
    }
  }

  /** `generate_quiet_promotions`. */
  method QuietPromotions(pos: Position, ml: MoveList, c: Color) returns (ghost added: seq<Move>)
    requires pos.Encodes()
    modifies ml
    ensures ml.items == old(ml.items) + added && NoRepeats(added)
    ensures forall m :: m in added <==> QuietPromotion(pos.cells, c, m)
  {
    var pawns := pos.typeBb[PAWN] * pos.colorBb[c];
    var occ := pos.Occupancy();
    var targets := ShiftBoard(pawns * RankMask(6, c), c) - occ;
    assert targets == PushTargets(pos.cells, c, RankMask(6, c));
    forall m: Move
      ensures m.to in targets && m.from == PawnShift(m.to, Other(c)) <==> Pushes(pos.cells, c, m) && OnRank(m.from, c, 6)
    {
      PushTargetsMeaning(pos.cells, c, RankMask(6, c), m.from, m.to);
    }
    hide PushTargets, ShiftBoard, OfKind, Side, OnRank, Pushes;
    added := AddShiftedPromotions(ml, targets, c);
  }

  /** `generate_capture_promotions`. */
  method CapturePromotions(pos: Position, ml: MoveList, c: Color) returns (ghost added: seq<Move>)
    requires pos.Encodes()
    modifies ml
    ensures ml.items == old(ml.items) + added && NoRepeats(added)
    ensures forall m :: m in added <==> TakesAndPromotes(pos.cells, c, m)
  {
    var pawns := pos.typeBb[PAWN] * pos.colorBb[c] * RankMask(6, c);
    var enemies := pos.colorBb[Other(c)];
    PawnCaptureMeaning(pos.cells, c);
    assert forall s: Square :: s in pawns <==> LastRankPawn(pos.cells, c, s);
    assert forall s: Square :: s in enemies <==> Owns(pos.cells, Other(c), s);
    hide LastRankPawn, Owns, PawnAttacks, Reaches, OfKind, Side, RankMask;
    var left := pawns;
    added := [];
    while left != {}
      invariant left <= pawns
      invariant ml.items == old(ml.items) + added && NoRepeats(added)
      invariant forall m :: m in added <==> (m.from in pawns - left && m.to in PawnAttacks(m.from, c) * enemies && Promotes(m) && m.kind == CapturePromotion)
      decreases left
    {
      var from := Lowest(left);
      left := left - {from};
      ghost var more := ml.AddTargetPromotions(from, PawnAttacks(from, c) * enemies, CapturePromotion);
      Joins(added, more);
      added := added + more;
    }
  }

  /** A pawn of `c` reaches what its capture pattern says. */
  lemma PawnCaptureMeaning(cells: Cells, c: Color)
    ensures forall m: Move :: Holds(cells, m.from, PAWN, c) ==> (Reaches(cells, c, m) <==> m.to in PawnAttacks(m.from, c))
  {
    forall m: Move | Holds(cells, m.from, PAWN, c) ensures Reaches(cells, c, m) <==> m.to in PawnAttacks(m.from, c) {
      PawnAttacksMeaning(m.from, c, m.to);
      hide PawnAttacks;
    }
  }

  /** Squares two steps on from the second rank, both empty. */
  function DoubleTargets(cells: Cells, c: Color, singles: Bitboard): Bitboard {
    ShiftBoard(singles * RankMask(2, c), c) - cells.Keys
  }

  lemma DoubleTargetsMeaning(cells: Cells, c: Color, m: Move)
    ensures
      var singles := PushTargets(cells, c, NotRank(6, c));
      m.to in DoubleTargets(cells, c, singles) && m.from == m.to + 2 * PawnShift(0, Other(c)) <==>
      Holds(cells, m.from, PAWN, c) && OnRank(m.from, c, 1) && PawnShift(m.from, c) !in cells &&
      m.to == (if c == WHITE then m.from + 16 else m.from - 16) && m.to !in cells
  {
    var singles := PushTargets(cells, c, NotRank(6, c));
    var s := PawnShift(m.from, c);
    if 0 <= s < 64 {
      PushTargetsMeaning(cells, c, NotRank(6, c), m.from, s);
      assert OnRank(s, c, 2) <==> OnRank(m.from, c, 1);
      assert OnRank(m.from, c, 1) ==> !OnRank(m.from, c, 6);
    }
    hide PushTargets, Holds;
  }

  function NotRank(r: int, c: Color): Bitboard {
    set s: Square | !OnRank(s, c, r)
  }

  /** `generate_pawn_quiets`. */
  method PawnQuiets(pos: Position, ml: MoveList, c: Color) returns (ghost added: seq<Move>)
    requires pos.Encodes()
    modifies ml
    ensures ml.items == old(ml.items) + added && NoRepeats(added)
    ensures forall m :: m in added <==> QuietPromotion(pos.cells, c, m) || SinglePush(pos.cells, c, m) || TwoSteps(pos.cells, c, m)
  {
    var pawns := pos.typeBb[PAWN] * pos.colorBb[c];
    var occ := pos.Occupancy();
    var single := ShiftBoard(pawns * NotRank(6, c), c) - occ;
    var double := ShiftBoard(single * RankMask(2, c), c) - occ;
    assert single == PushTargets(pos.cells, c, NotRank(6, c)) && double == DoubleTargets(pos.cells, c, single);
    forall m: Move
      ensures m.to in single && m.from == PawnShift(m.to, Other(c)) <==> Pushes(pos.cells, c, m) && !OnRank(m.from, c, 6)
      ensures m.to in double && m.from == m.to + 2 * PawnShift(0, Other(c)) && m.promotion == PAWN && m.kind == DoublePush <==>
        TwoSteps(pos.cells, c, m)
    {
      PushTargetsMeaning(pos.cells, c, NotRank(6, c), m.from, m.to);
      DoubleTargetsMeaning(pos.cells, c, m);
      hide PushTargets, DoubleTargets, ShiftBoard, OnRank;
    }
    InsideBoard(pos.cells, c);
    hide PushTargets, DoubleTargets, ShiftBoard, OfKind, Side, OnRank, Pushes, TwoSteps;
    added := QuietPromotions(pos, ml, c);
    ghost var doubles := AddShifted(ml, double, c, 2, DoublePush);
    ghost var singles := AddShifted(ml, single, c, 1, Normal);
    Joins(added, doubles);
    Joins(added + doubles, singles);
    added := added + doubles + singles;
  }

  lemma InsideBoard(cells: Cells, c: Color)
    ensures
      var single := PushTargets(cells, c, NotRank(6, c));
      && (forall t :: t in single ==> 0 <= t + PawnShift(0, Other(c)) < 64)
      && (forall t :: t in DoubleTargets(cells, c, single) ==> 0 <= t + 2 * PawnShift(0, Other(c)) < 64)
  {
    hide OnRank, OfKind, Side;
  }

  /** `generate_pawn_captures`. */
  method PawnCaptures(pos: Position, ml: MoveList, c: Color) returns (ghost added: seq<Move>)
    requires pos.Valid()
    modifies ml
    ensures ml.items == old(ml.items) + added && NoRepeats(added)
    ensures forall m :: m in added <==>
      TakesAndPromotes(pos.cells, c, m) || PawnTakes(pos.cells, c, m) || TakesEnPassant(pos.cells, c, pos.View().Top().ep, m)
  {
    hide Reaches, LastRankPawn, Holds, Owns, OnRank, Promotes;
    added := CapturePromotions(pos, ml, c);
    ghost var enPassants := EnPassants(pos, ml, c);
    ghost var captures := PlainPawnCaptures(pos, ml, c);
    Joins(added, enPassants);
    Joins(added + enPassants, captures);
    added := added + enPassants + captures;
  }

  method EnPassants(pos: Position, ml: MoveList, c: Color) returns (ghost added: seq<Move>)
    requires pos.Valid()
    modifies ml
    ensures ml.items == old(ml.items) + added && NoRepeats(added)
    ensures forall m :: m in added <==> TakesEnPassant(pos.cells, c, pos.View().Top().ep, m)
  {
    var ep := pos.history[pos.ply].ep;
    added := [];
    if ep.Some? {
      var candidates := pos.typeBb[PAWN] * pos.colorBb[c] * PawnAttacks(ep.value, Other(c));
      forall s: Square
        ensures s in candidates <==> Holds(pos.cells, s, PAWN, c) && Attacks(Piece(PAWN, c), s, ep.value, pos.cells.Keys)
      {
        PawnAttacksMeaning(ep.value, Other(c), s);
        hide PawnAttacks;
      }
      hide PawnAttacks, Attacks;
      added := ml.AddSources(candidates, ep.value, EnPassant);
    }
  }

  method PlainPawnCaptures(pos: Position, ml: MoveList, c: Color) returns (ghost added: seq<Move>)
    requires pos.Encodes()
    modifies ml
    ensures ml.items == old(ml.items) + added && NoRepeats(added)
    ensures forall m :: m in added <==> PawnTakes(pos.cells, c, m)
  {
    var pawns := pos.typeBb[PAWN] * pos.colorBb[c] * NotRank(6, c);
    var enemies := pos.colorBb[Other(c)];
    PawnCaptureMeaning(pos.cells, c);
    assert forall s: Square :: s in pawns <==> Holds(pos.cells, s, PAWN, c) && !OnRank(s, c, 6);
    assert forall s: Square :: s in enemies <==> Owns(pos.cells, Other(c), s);
    hide Owns, PawnAttacks, Reaches, OfKind, Side, NotRank, OnRank, Holds;
    var left := pawns;
    added := [];
    while left != {}
      invariant left <= pawns
      invariant ml.items == old(ml.items) + added && NoRepeats(added)
      invariant forall m :: m in added <==> (m.from in pawns - left && m.to in PawnAttacks(m.from, c) * enemies && m.promotion == PAWN && m.kind == Capture)
      decreases left
    {
      var from := Lowest(left);
      left := left - {from};
      ghost var more := ml.AddTargets(from, PawnAttacks(from, c) * enemies, Capture);
      Joins(added, more);
      added := added + more;
    }
  }

  /** `generate_non_pawn_quiets`. */
  method NonPawnQuiets(pos: Position, ml: MoveList, k: PieceType, c: Color) returns (ghost added: seq<Move>)
    requires pos.Encodes() && k != PAWN
    modifies ml
    ensures ml.items == old(ml.items) + added && NoRepeats(added)
    ensures forall m :: m in added <==> PieceQuiet(pos.cells, c, k, m)
  {
    var pieces := pos.typeBb[k] * pos.colorBb[c];
    var occ := pos.Occupancy();
    PieceReachMeaning(pos.cells, k, c);
    assert forall s: Square :: s in pieces <==> Holds(pos.cells, s, k, c);
    hide NonPawnAttacks, Reaches, OfKind, Side, Holds;
    var left := pieces;
    added := [];
    while left != {}
      invariant left <= pieces
      invariant ml.items == old(ml.items) + added && NoRepeats(added)
      invariant forall m :: m in added <==> (m.from in pieces - left && m.to in NonPawnAttacks(k, m.from, occ) - occ && m.promotion == PAWN && m.kind == Normal)
      decreases left
    {
      var from := Lowest(left);
      left := left - {from};
      ghost var more := ml.AddTargets(from, NonPawnAttacks(k, from, occ) - occ, Normal);
      Joins(added, more);
      added := added + more;
    }
  }

  lemma PieceReachMeaning(cells: Cells, k: PieceType, c: Color)
    requires k != PAWN
    ensures forall m: Move :: Holds(cells, m.from, k, c) ==> (Reaches(cells, c, m) <==> m.to in NonPawnAttacks(k, m.from, cells.Keys))
  {
    forall m: Move | Holds(cells, m.from, k, c) ensures Reaches(cells, c, m) <==> m.to in NonPawnAttacks(k, m.from, cells.Keys) {
      NonPawnAttacksMeaning(Piece(k, c), m.from, m.to, cells.Keys);
      hide NonPawnAttacks, Attacks;
    }
  }

  /** `generate_non_pawn_captures`. */
  method NonPawnCaptures(pos: Position, ml: MoveList, k: PieceType, c: Color) returns (ghost added: seq<Move>)
    requires pos.Encodes() && k != PAWN
    modifies ml
    ensures ml.items == old(ml.items) + added && NoRepeats(added)
    ensures forall m :: m in added <==> PieceTakes(pos.cells, c, k, m)
  {
    var pieces := pos.typeBb[k] * pos.colorBb[c];
    var occ := pos.Occupancy();
    var enemies := pos.colorBb[Other(c)];
    PieceReachMeaning(pos.cells, k, c);
    assert forall s: Square :: s in pieces <==> Holds(pos.cells, s, k, c);
    assert forall s: Square :: s in enemies <==> Owns(pos.cells, Other(c), s);
    hide NonPawnAttacks, Reaches, OfKind, Side, Holds, Owns;
    var left := pieces;
    added := [];
    while left != {}
      invariant left <= pieces
      invariant ml.items == old(ml.items) + added && NoRepeats(added)
      invariant forall m :: m in added <==> (m.from in pieces - left && m.to in NonPawnAttacks(k, m.from, occ) * enemies && m.promotion == PAWN && m.kind == Capture)
      decreases left
    {
      var from := Lowest(left);
      left := left - {from};
      ghost var more := ml.AddTargets(from, NonPawnAttacks(k, from, occ) * enemies, Capture);
      Joins(added, more);
      added := added + more;
    }
  }

  /** Whether any piece of `c` attacks `s`. */
  method IsAttacked(pos: Position, s: Square, c: Color) returns (r: bool)
    requires pos.Encodes()
    ensures r <==> Attacked(pos.cells, s, c)
  {
    var occ := pos.Occupancy();
    var attackers := pos.AttackersTo(s, occ);
    r := attackers * pos.colorBb[c] != {};
  }

  lemma NoCommon(a: Bitboard, b: Bitboard)
    ensures a * b == {} <==> a !! b
  {
    if a * b == {} {
      assert forall x :: x in a && x in b ==> x in a * b;
    }
  }

  /** The conditions of one wing: right, empty gap, three unattacked squares. */
  method MayCastle(pos: Position, c: Color, from: Square, to: Square) returns (ok: bool)
    requires pos.Valid() && from == (if c == WHITE then E1 else E8) && to in (if c == WHITE then {G1, C1} else {G8, C8})
    ensures ok <==> CanCastle(pos.cells, c, pos.View().Top().rights, from, to)
  {
    hide Attacked, FullHash, CastlingGap, CastlingRight, RookTo, Positions.Position.Encodes;
    var occ := pos.Occupancy();
    NoCommon(CastlingGap(to), occ);
    if pos.history[pos.ply].rights & CastlingRight(to) == 0 || CastlingGap(to) * occ != {} {
      return false;
    }
    var a := IsAttacked(pos, from, Other(c));
    var b := IsAttacked(pos, RookTo(to), Other(c));
    var d := IsAttacked(pos, to, Other(c));
    return !a && !b && !d;
  }

  /** One wing of `generate_castling`. */
  method CastleTo(pos: Position, ml: MoveList, c: Color, to: Square) returns (ghost added: seq<Move>)
    requires pos.Valid() && to in (if c == WHITE then {G1, C1} else {G8, C8})
    modifies ml
    ensures ml.items == old(ml.items) + added && NoRepeats(added)
    ensures forall m :: m in added <==> (m.to == to && Castles(pos.cells, c, pos.View().Top().rights, m))
  {
    var from := if c == WHITE then E1 else E8;
    var ok := MayCastle(pos, c, from, to);
    assert forall m: Move :: m.to == to && Castles(pos.cells, c, pos.View().Top().rights, m) <==> ok && m == Move(from, to, PAWN, Castling);
    added := [];
    if ok {
      ml.Add(Move(from, to, PAWN, Castling));
      added := [Move(from, to, PAWN, Castling)];
    }
  }

  /** `generate_castling`: kingside, then queenside. */
  method GenerateCastling(pos: Position, ml: MoveList, c: Color) returns (ghost added: seq<Move>)
    requires pos.Valid()
    modifies ml
    ensures ml.items == old(ml.items) + added && NoRepeats(added)
    ensures forall m :: m in added <==> Castles(pos.cells, c, pos.View().Top().rights, m)
  {
    hide Attacked;
    added := CastleTo(pos, ml, c, if c == WHITE then G1 else G8);
    ghost var queenside := CastleTo(pos, ml, c, if c == WHITE then C1 else C8);
    Joins(added, queenside);
    added := added + queenside;
  }

  /** `generate_capture_moves`. */
  method CaptureMoves(pos: Position, ml: MoveList, c: Color) returns (ghost added: seq<Move>)
    requires pos.Valid()
    modifies ml
    ensures ml.items == old(ml.items) + added && NoRepeats(added)
    ensures forall m :: m in added <==>
      || TakesAndPromotes(pos.cells, c, m) || PawnTakes(pos.cells, c, m)
      || TakesEnPassant(pos.cells, c, pos.View().Top().ep, m)
      || exists k: PieceType :: k != PAWN && PieceTakes(pos.cells, c, k, m)
  {
    hide TakesAndPromotes, PawnTakes, TakesEnPassant, PieceTakes;
    added := PawnCaptures(pos, ml, c);
    CasesApart(pos.cells, c, pos.View().Top().rights, pos.View().Top().ep);
    for k := KNIGHT to 6
      invariant ml.items == old(ml.items) + added && NoRepeats(added)
      invariant forall m :: m in added <==>
        || TakesAndPromotes(pos.cells, c, m) || PawnTakes(pos.cells, c, m)
        || TakesEnPassant(pos.cells, c, pos.View().Top().ep, m)
        || exists j: PieceType :: PAWN < j < k && PieceTakes(pos.cells, c, j, m)
    {
      ghost var more := NonPawnCaptures(pos, ml, k, c);
      Joins(added, more);
      added := added + more;
    }
  }

  /** `generate_quiet_moves`. */
  method QuietMoves(pos: Position, ml: MoveList, c: Color) returns (ghost added: seq<Move>)
    requires pos.Valid()
    modifies ml
    ensures ml.items == old(ml.items) + added && NoRepeats(added)
    ensures forall m :: m in added <==>
      || QuietPromotion(pos.cells, c, m) || SinglePush(pos.cells, c, m) || TwoSteps(pos.cells, c, m)
      || Castles(pos.cells, c, pos.View().Top().rights, m)
      || exists k: PieceType :: k != PAWN && PieceQuiet(pos.cells, c, k, m)
  {
    hide QuietPromotion, SinglePush, TwoSteps, Castles, PieceQuiet;
    added := PawnQuiets(pos, ml, c);
    CasesApart(pos.cells, c, pos.View().Top().rights, pos.View().Top().ep);
    for k := KNIGHT to 6
      invariant ml.items == old(ml.items) + added && NoRepeats(added)
      invariant forall m :: m in added <==>
        || QuietPromotion(pos.cells, c, m) || SinglePush(pos.cells, c, m) || TwoSteps(pos.cells, c, m)
        || exists j: PieceType :: PAWN < j < k && PieceQuiet(pos.cells, c, j, m)
    {
      ghost var more := NonPawnQuiets(pos, ml, k, c);
      Joins(added, more);
      added := added + more;
    }
    ghost var castlings := GenerateCastling(pos, ml, c);
    Joins(added, castlings);
    added := added + castlings;
  }

  /** `pseudo_legal_move_list_into`: exactly the pseudo-legal moves, each once, captures first. */
  method PseudoLegalMoves(pos: Position, ml: MoveList, c: Color)
    requires pos.Valid()
    modifies ml
    ensures forall m :: m in ml.items <==> PseudoLegal(pos.cells, c, pos.View().Top().rights, pos.View().Top().ep, m)
    ensures NoRepeats(ml.items) && CapturesFirst(ml.items)
  {
    hide PseudoLegal, TakesAndPromotes, PawnTakes, TakesEnPassant, PieceTakes, QuietPromotion, SinglePush, TwoSteps, Castles, PieceQuiet;
    ml.Clear();
    ghost var captures := CaptureMoves(pos, ml, c);
    ghost var quiets := QuietMoves(pos, ml, c);
    CasesApart(pos.cells, c, pos.View().Top().rights, pos.View().Top().ep);
    JoinsCaptures(captures, quiets);
    assert ml.items == captures + quiets;
    forall m: Move
      ensures m in ml.items <==> PseudoLegal(pos.cells, c, pos.View().Top().rights, pos.View().Top().ep, m)
    {
      CasesCover(pos.cells, c, pos.View().Top().rights, pos.View().Top().ep, m);
    }
  }

  // ---- answering a check ----

  /** King steps of `check_evasion_move_list`, with the king lifted off the board. */
  method KingSteps(pos: Position, ml: MoveList, c: Color, k: Square) returns (ghost added: seq<Move>)
    requires pos.Encodes() && k in pos.cells
    modifies ml
    ensures ml.items == old(ml.items) + added && NoRepeats(added)
    ensures forall m :: m in added <==> KingEvasion(pos.cells, c, k, m)
  {
    var occ := pos.Occupancy();
    var rest := Xor(occ, {k});
    assert rest == pos.cells.Keys - {k};
    var enemies, steps := pos.colorBb[Other(c)], KingAttacks(k) - pos.colorBb[c];
    assert forall s: Square :: s in pos.colorBb[c] <==> Owns(pos.cells, c, s);
    assert forall s: Square :: s in enemies <==> Owns(pos.cells, Other(c), s);
    assert enemies == Side(pos.cells, Other(c));
    hide KingAttacks, Attackers, Owns, Side;
    var left := steps;
    added := [];
    while left != {}
      invariant left <= steps
      invariant ml.items == old(ml.items) + added && NoRepeats(added)
      invariant forall m :: m in added <==> (m.to !in left && KingEvasion(pos.cells, c, k, m))
      decreases left
    {
      var to := Lowest(left);
      left := left - {to};
      var attackers := pos.AttackersTo(to, rest);
      if attackers * enemies == {} {
        ml.Add(Move(k, to, PAWN, if to in enemies then Capture else Normal));
        Joins(added, [Move(k, to, PAWN, if to in enemies then Capture else Normal)]);
        added := added + [Move(k, to, PAWN, if to in enemies then Capture else Normal)];
      }
    }
  }

  lemma CheckerLists(
    cells: Cells, c: Color, ep: Option<Square>, k: Square, checker: Square, attackers: Bitboard, lastRank: Bitboard,
    enPassants: seq<Move>, promotions: seq<Move>, captures: seq<Move>)
    requires attackers == Attackers(cells, checker, cells.Keys) * Side(cells, c) - {k}
    requires forall s: Square :: s in lastRank <==> LastRankPawn(cells, c, s)
    requires NoRepeats(enPassants) && forall m :: m in enPassants <==> EpTakesChecker(cells, c, ep, k, m)
    requires NoRepeats(promotions)
    requires forall m :: m in promotions <==> m.from in attackers * lastRank && m.to == checker && Promotes(m) && m.kind == CapturePromotion
    requires NoRepeats(captures)
    requires forall m :: m in captures <==> m.from in attackers - lastRank && m.to == checker && m.promotion == PAWN && m.kind == Capture
    ensures NoRepeats(enPassants + promotions + captures)
    ensures forall m :: m in enPassants + promotions + captures <==> EpTakesChecker(cells, c, ep, k, m) || TakesChecker(cells, c, k, checker, m)
  {
    assert forall m :: EpTakesChecker(cells, c, ep, k, m) ==> m.kind == EnPassant;
    hide Attackers, Side, LastRankPawn, EpTakesChecker, Promotes, NoRepeats;
    Joins(enPassants, promotions);
    Joins(enPassants + promotions, captures);
  }

  /** `generate_checker_capture_moves` for a single checker. */
  method CheckerCaptures(pos: Position, ml: MoveList, c: Color, k: Square, checkers: Bitboard) returns (ghost added: seq<Move>)
    requires pos.Valid() && checkers == Checkers(pos.cells, c, k) && |checkers| == 1
    modifies ml
    ensures ml.items == old(ml.items) + added && NoRepeats(added)
    ensures forall m :: m in added <==> EpTakesChecker(pos.cells, c, pos.View().Top().ep, k, m) || TakesChecker(pos.cells, c, k, Lowest(checkers), m)
  {
    var pawns := pos.typeBb[PAWN] * pos.colorBb[c];
    ghost var before := ml.items;
    added := EpOfChecker(pos, ml, c, k, checkers, pawns);
    var checker := Lowest(checkers);
    var occ := pos.Occupancy();
    var attackers := pos.AttackersTo(checker, occ);
    attackers := attackers * pos.colorBb[c] - {k};
    var lastRank := pawns * RankMask(6, c);
    assert attackers == Attackers(pos.cells, checker, pos.cells.Keys) * Side(pos.cells, c) - {k};
    assert forall s: Square :: s in lastRank <==> LastRankPawn(pos.cells, c, s);
    hide Attackers, Side, OfKind, LastRankPawn, EpTakesChecker, TakesChecker, RankMask, Checkers, Promotes, NoRepeats;
    ghost var promotions := ml.AddSourcePromotions(attackers * lastRank, checker, CapturePromotion);
    ghost var captures := ml.AddSources(attackers - lastRank, checker, Capture);
    CheckerLists(pos.cells, c, pos.View().Top().ep, k, checker, attackers, lastRank, added, promotions, captures);
    Regroup(before, added, promotions, captures);
    added := added + promotions + captures;
  }

  /** Shifting the en-passant square back finds the pawn that crossed it. */
  lemma CrossingPawn(ep: Square, c: Color, checkers: Bitboard)
    ensures ShiftBoard({ep}, Other(c)) * checkers != {} <==> Behind(ep, c) in checkers
  {
    if Behind(ep, c) in checkers {
      var s: Square := Behind(ep, c);
      assert s in ShiftBoard({ep}, Other(c)) * checkers;
    }
  }

  method EpOfChecker(pos: Position, ml: MoveList, c: Color, k: Square, checkers: Bitboard, pawns: Bitboard) returns (ghost added: seq<Move>)
    requires pos.Valid() && checkers == Checkers(pos.cells, c, k) && pawns == PawnsOf(pos.cells, c)
    modifies ml
    ensures ml.items == old(ml.items) + added && NoRepeats(added)
    ensures forall m :: m in added <==> EpTakesChecker(pos.cells, c, pos.View().Top().ep, k, m)
  {
    hide Checkers, PawnAttacks, OfKind, Side;
    var ep := pos.history[pos.ply].ep;
    added := [];
    if ep.Some? {
      CrossingPawn(ep.value, c, checkers);
      if ShiftBoard({ep.value}, Other(c)) * checkers != {} {
        added := ml.AddSources(pawns * PawnAttacks(ep.value, Other(c)), ep.value, EnPassant);
      }
    }
  }

  /** Squares between the king and a lone checker onto which a pawn can be pushed two steps. */
  predicate TwoStepBlock(cells: Cells, c: Color, between: Bitboard, m: Move) {
    && m.to in between && m.kind == DoublePush && m.promotion == PAWN && Holds(cells, m.from, PAWN, c) && OnRank(m.from, c, 1)
    && PawnShift(m.from, c) !in cells && m.to == (if c == WHITE then m.from + 16 else m.from - 16)
  }

  predicate OneStepBlock(cells: Cells, c: Color, between: Bitboard, m: Move) {
    && m.to in between && Holds(cells, m.from, PAWN, c) && m.to == PawnShift(m.from, c)
    && if OnRank(m.from, c, 6) then m.kind == Promotion && Promotes(m) else m.kind == Normal && m.promotion == PAWN
  }

  predicate PieceBlock(cells: Cells, c: Color, k: Square, between: Bitboard, m: Move) {
    && m.to in between && m.kind == Normal && m.promotion == PAWN
    && m.from in Attackers(cells, m.to, cells.Keys) * Side(cells, c) - {k} && cells[m.from].kind != PAWN
  }

  /** Double pushes into the line. */
  method TwoStepBlocks(pos: Position, ml: MoveList, c: Color, between: Bitboard) returns (ghost added: seq<Move>)
    requires pos.Encodes()
    modifies ml
    ensures ml.items == old(ml.items) + added && NoRepeats(added)
    ensures forall m :: m in added <==> TwoStepBlock(pos.cells, c, between, m)
  {
    var pawns := pos.typeBb[PAWN] * pos.colorBb[c];
    var occ := pos.Occupancy();
    var sources := ShiftBoard(ShiftBoard(between, Other(c)) - occ, Other(c)) * pawns * RankMask(1, c);
    forall s: Square
      ensures s in sources <==>
        Holds(pos.cells, s, PAWN, c) && OnRank(s, c, 1) && PawnShift(s, c) !in pos.cells && 0 <= s + 2 * PawnShift(0, c) < 64 &&
        s + 2 * PawnShift(0, c) in between
    {
      BoardOf(pos.cells, PAWN, c, s);
      if OnRank(s, c, 1) {
        TwoBack(between, occ, c, s);
      }
      hide ShiftBoard, OfKind, Side;
    }
    hide ShiftBoard, OfKind, Side, RankMask, OnRank, Holds;
    var left := sources;
    added := [];
    while left != {}
      invariant left <= sources
      invariant ml.items == old(ml.items) + added && NoRepeats(added)
      invariant forall m :: m in added <==> (m.from in sources - left && m.to == m.from + 2 * PawnShift(0, c) && m.promotion == PAWN && m.kind == DoublePush)
      decreases left
    {
      var from := Lowest(left);
      left := left - {from};
      ml.Add(Move(from, from + 2 * PawnShift(0, c), PAWN, DoublePush));
      Joins(added, [Move(from, from + 2 * PawnShift(0, c), PAWN, DoublePush)]);
      added := added + [Move(from, from + 2 * PawnShift(0, c), PAWN, DoublePush)];
    }
  }

  lemma TwoBack(between: Bitboard, occ: Bitboard, c: Color, s: Square)
    requires OnRank(s, c, 1)
    ensures s in ShiftBoard(ShiftBoard(between, Other(c)) - occ, Other(c)) <==>
      PawnShift(s, c) !in occ && 0 <= s + 2 * PawnShift(0, c) < 64 && s + 2 * PawnShift(0, c) in between
  {
  }

  /** Single pushes into the line, promoting from the seventh rank. */
  method OneStepBlocks(pos: Position, ml: MoveList, c: Color, between: Bitboard) returns (ghost added: seq<Move>)
    requires pos.Encodes()
    modifies ml
    ensures ml.items == old(ml.items) + added && NoRepeats(added)
    ensures forall m :: m in added <==> OneStepBlock(pos.cells, c, between, m)
  {
    var pawns := pos.typeBb[PAWN] * pos.colorBb[c];
    var sources := ShiftBoard(between, Other(c)) * pawns;
    forall s: Square
      ensures s in sources <==> Holds(pos.cells, s, PAWN, c) && 0 <= PawnShift(s, c) < 64 && PawnShift(s, c) in between
    {
      BoardOf(pos.cells, PAWN, c, s);
      hide OfKind, Side;
    }
    hide ShiftBoard, OfKind, Side, Holds;
    var left := sources;
    added := [];
    while left != {}
      invariant left <= sources
      invariant ml.items == old(ml.items) + added && NoRepeats(added)
      invariant forall m :: m in added <==> (m.from !in left && OneStepBlock(pos.cells, c, between, m))
      decreases left
    {
      var from := Lowest(left);
      left := left - {from};
      var to := PawnShift(from, c);
      assert OnRank(from, c, 6) <==> (c == WHITE && Rank(from) == 6) || (c == BLACK && Rank(from) == 1);
      if (c == WHITE && Rank(from) == 6) || (c == BLACK && Rank(from) == 1) {
        ml.AddPromotions(from, to, Promotion);
        Joins(added, FourPromotions(from, to, Promotion));
        added := added + FourPromotions(from, to, Promotion);
      } else {
        ml.Add(Move(from, to, PAWN, Normal));
        Joins(added, [Move(from, to, PAWN, Normal)]);
        added := added + [Move(from, to, PAWN, Normal)];
      }
    }
  }

  /** Other pieces stepping into the line. */
  method PieceBlocks(pos: Position, ml: MoveList, c: Color, k: Square, between: Bitboard) returns (ghost added: seq<Move>)
    requires pos.Encodes()
    modifies ml
    ensures ml.items == old(ml.items) + added && NoRepeats(added)
    ensures forall m :: m in added <==> PieceBlock(pos.cells, c, k, between, m)
  {
    var occ := pos.Occupancy();
    var excluded := {k} + pos.typeBb[PAWN] * pos.colorBb[c];
    ghost var cells := pos.cells;
    forall m: Move
      ensures PieceBlock(cells, c, k, between, m) <==>
        m.to in between && m.from in Attackers(cells, m.to, cells.Keys) * Side(cells, c) - excluded && m.promotion == PAWN && m.kind == Normal
    {
      BoardOf(cells, PAWN, c, m.from);
    }
    assert pos.colorBb[c] == Side(cells, c);
    hide Attackers, Side, OfKind, PieceBlock;
    var left := between;
    added := [];
    while left != {}
      invariant left <= between
      invariant ml.items == old(ml.items) + added && NoRepeats(added)
      invariant forall m :: m in added <==> (m.to !in left && PieceBlock(cells, c, k, between, m))
      decreases left
    {
      var to := Lowest(left);
      left := left - {to};
      var attackers := pos.AttackersTo(to, occ);
      ghost var more := ml.AddSources(attackers * pos.colorBb[c] - excluded, to, Normal);
      Joins(added, more);
      added := added + more;
    }
  }

  lemma BlocksApart(cells: Cells, c: Color, k: Square, between: Bitboard)
    ensures forall m :: TwoStepBlock(cells, c, between, m) ==> m.kind == DoublePush
    ensures forall m :: OneStepBlock(cells, c, between, m) ==> m.kind in {Promotion, Normal} && m.from in cells && cells[m.from].kind == PAWN
    ensures forall m :: PieceBlock(cells, c, k, between, m) ==> m.kind == Normal && m.from in cells && cells[m.from].kind != PAWN
  {
    hide OnRank, Attackers;
  }

  lemma BlockLists(
    cells: Cells, c: Color, k: Square, checker: Square, doubles: seq<Move>, singles: seq<Move>, pieces: seq<Move>)
    requires NoRepeats(doubles) && forall m :: m in doubles <==> TwoStepBlock(cells, c, Intervening(k, checker), m)
    requires NoRepeats(singles) && forall m :: m in singles <==> OneStepBlock(cells, c, Intervening(k, checker), m)
    requires NoRepeats(pieces) && forall m :: m in pieces <==> PieceBlock(cells, c, k, Intervening(k, checker), m)
    ensures NoRepeats(doubles + singles + pieces)
    ensures forall m :: m in doubles + singles + pieces <==> BlocksChecker(cells, c, k, checker, m)
  {
    BlocksApart(cells, c, k, Intervening(k, checker));
    BlocksSplit(cells, c, k, checker);
    hide TwoStepBlock, OneStepBlock, PieceBlock, BlocksChecker, NoRepeats, Intervening;
    Joins(doubles, singles);
    Joins(doubles + singles, pieces);
  }

  lemma BlocksSplit(cells: Cells, c: Color, k: Square, checker: Square)
    ensures forall m :: BlocksChecker(cells, c, k, checker, m) <==>
      var between := Intervening(k, checker);
      TwoStepBlock(cells, c, between, m) || OneStepBlock(cells, c, between, m) || PieceBlock(cells, c, k, between, m)
  {
    hide Intervening, Attackers, Side, OnRank, Holds, Promotes;
  }

  /** `generate_checker_block_moves` for a single checker. */
  method CheckerBlocks(pos: Position, ml: MoveList, c: Color, k: Square, checkers: Bitboard) returns (ghost added: seq<Move>)
    requires pos.Encodes() && |checkers| == 1
    modifies ml
    ensures ml.items == old(ml.items) + added && NoRepeats(added)
    ensures forall m :: m in added <==> BlocksChecker(pos.cells, c, k, Lowest(checkers), m)
  {
    var between := Intervening(k, Lowest(checkers));
    hide Intervening, Attackers, Side, OnRank, Holds, NoRepeats, TwoStepBlock, OneStepBlock, PieceBlock, Positions.Position.Encodes;
    ghost var before := ml.items;
    added := [];
    if between != {} {
      added := TwoStepBlocks(pos, ml, c, between);
      ghost var singles := OneStepBlocks(pos, ml, c, between);
      ghost var pieces := PieceBlocks(pos, ml, c, k, between);
      BlockLists(pos.cells, c, k, Lowest(checkers), added, singles, pieces);
      Regroup(before, added, singles, pieces);
      added := added + singles + pieces;
    }
  }

  lemma EvasionsApart(cells: Cells, c: Color, ep: Option<Square>, k: Square, checker: Square)
    requires IsKing(cells, c, k)
    ensures forall m :: KingEvasion(cells, c, k, m) ==> m.from == k
    ensures forall m :: EpTakesChecker(cells, c, ep, k, m) || TakesChecker(cells, c, k, checker, m) ==> m.from != k && IsCapture(m)
    ensures forall m :: BlocksChecker(cells, c, k, checker, m) ==> m.from != k && !IsCapture(m)
  {
    hide OnRank, Attackers, Intervening, Checkers, Attacks;
  }

  lemma EvasionLists(
    cells: Cells, c: Color, ep: Option<Square>, k: Square, checkers: Bitboard, steps: seq<Move>, captures: seq<Move>, blocks: seq<Move>)
    requires IsKing(cells, c, k) && checkers == Checkers(cells, c, k) && |checkers| == 1
    requires NoRepeats(steps) && forall m :: m in steps <==> KingEvasion(cells, c, k, m)
    requires NoRepeats(captures)
    requires forall m :: m in captures <==> EpTakesChecker(cells, c, ep, k, m) || TakesChecker(cells, c, k, Lowest(checkers), m)
    requires NoRepeats(blocks) && forall m :: m in blocks <==> BlocksChecker(cells, c, k, Lowest(checkers), m)
    ensures NoRepeats(steps + captures + blocks)
    ensures forall m :: m in steps + captures + blocks <==> Evasion(cells, c, ep, k, m)
  {
    EvasionsApart(cells, c, ep, k, Lowest(checkers));
    hide KingEvasion, EpTakesChecker, TakesChecker, BlocksChecker, Checkers, NoRepeats, IsKing, IsCapture;
    Joins(steps, captures);
    Joins(steps + captures, blocks);
  }

  /** `check_evasion_move_list`: exactly the evasions, each once. */
  method CheckEvasions(pos: Position, ml: MoveList, c: Color)
    requires pos.Valid() && OneKing(pos.cells, c) && Checkers(pos.cells, c, KingSquare(pos.cells, c)) != {}
    modifies ml
    ensures forall m :: m in ml.items <==> Evasion(pos.cells, c, pos.View().Top().ep, KingSquare(pos.cells, c), m)
    ensures NoRepeats(ml.items)
  {
    var k := pos.KingOf(c);
    var checkers := CheckersOf(pos, c, k);
    ml.Clear();
    hide KingEvasion, EpTakesChecker, TakesChecker, BlocksChecker, Checkers, NoRepeats, Positions.Position.Encodes;
    ghost var steps := KingSteps(pos, ml, c, k);
    if |checkers| > 1 {
      return;
    }
    ghost var captures := CheckerCaptures(pos, ml, c, k, checkers);
    ghost var blocks := CheckerBlocks(pos, ml, c, k, checkers);
    EvasionLists(pos.cells, c, pos.View().Top().ep, k, checkers, steps, captures, blocks);
    Regroup([], steps, captures, blocks);
  }

  /** `checkers_to`. */
  method CheckersOf(pos: Position, c: Color, k: Square) returns (r: Bitboard)
    requires pos.Encodes()
    ensures r == Checkers(pos.cells, c, k)
  {
    var occ := pos.Occupancy();
    r := pos.AttackersTo(k, occ);
    r := r * pos.colorBb[Other(c)];
  }

  // ---- the legal move list ----

  lemma LegalMeaning(p: Pos)
    requires WellFormed(p)
    ensures forall m :: Legal(p, m) <==> Safe(p, m) && !Overlooked(p, m)
    ensures forall m :: Legal(p, m) <==> InLegalList(p.cells, p.stm, p.Top().rights, p.Top().ep, KingSquare(p.cells, p.stm), m)
  {
    hide Safe, Overlooked, InLegalList, RightsHome, EpHome, PawnsInside;
    forall m: Move ensures Legal(p, m) <==> Safe(p, m) && !Overlooked(p, m) {
      LegalIsSafe(p, m);
    }
  }

  /** `legal_move_list`: generate, then filter by swapping the last move into the gap. For every
      well-formed position the result is exactly the legal moves, each once. */
  method LegalMoves(pos: Position, ml: MoveList)
    requires pos.Valid() && WellFormed(pos.View())
    modifies ml
    ensures forall m :: m in ml.items <==> Legal(pos.View(), m)
    ensures forall m :: m in ml.items <==> Safe(pos.View(), m) && !Overlooked(pos.View(), m)
    ensures NoRepeats(ml.items)
  {
    LegalMeaning(pos.View());
    var c := pos.stm;
    var k := pos.KingOf(c);
    var checkers := CheckersOf(pos, c, k);
    if checkers != {} {
      CheckEvasions(pos, ml, c);
    } else {
      PseudoLegalMoves(pos, ml, c);
    }
    ghost var p := pos.View();
    ghost var generated := ml.items;
    EpTargets(p, k, generated);
    var pinned := pos.PinnedPiecesOf(c);
    hide Legal, Safe, Overlooked;
    Filter(pos, ml, k, pinned);
  }

  /** The engine's own list: empty after 150 half-moves without progress or on the fifth
      occurrence of a position. */
  method LegalMoveList(pos: Position, ml: MoveList)
    requires pos.Valid() && WellFormed(pos.View())
    modifies ml
    ensures
      if pos.View().Top().halfmoves >= 150 || RepeatCount(pos.history) >= 4 then ml.items == []
      else forall m :: m in ml.items <==> Legal(pos.View(), m)
    ensures NoRepeats(ml.items)
    ensures ml.items == [] <==> Stuck(pos.View())
  {
    hide WellFormed, Legal, Safe, Overlooked, RepeatCount;
    var repeated := pos.IsRepeat(4);
    if pos.history[pos.ply].halfmoves >= 150 || repeated {
      ml.Clear();
    } else {
      LegalMoves(pos, ml);
      assert ml.items != [] ==> ml.items[0] in ml.items;
    }
  }

  predicate Generated(p: Pos, k: Square, m: Move)
    requires p.history != []
  {
    if Checkers(p.cells, p.stm, k) != {} then Evasion(p.cells, p.stm, p.Top().ep, k, m)
    else PseudoLegal(p.cells, p.stm, p.Top().rights, p.Top().ep, m)
  }

  lemma EpTargets(p: Pos, k: Square, list: seq<Move>)
    requires WellFormed(p) && forall m :: m in list ==> Generated(p, k, m)
    ensures forall m :: m in list && m.kind == EnPassant ==> p.Top().ep == Some(m.to) && 0 <= Behind(m.to, p.stm) < 64
  {
    hide Checkers, Attacks, Rank, PawnAttacks, Intervening, CanCastle;
  }

  /** Whether the filter keeps a move. */
  predicate Kept(p: Pos, k: Square, pinned: Bitboard, m: Move)
    requires m.kind == EnPassant ==> 0 <= Behind(m.to, p.stm) < 64
  {
    m.from in pinned || m.from == k || m.kind == EnPassant ==> PassesTest(p.cells, p.stm, k, m, pinned)
  }

  method Filter(pos: Position, ml: MoveList, k: Square, pinned: Bitboard)
    requires pos.Valid() && OneKing(pos.cells, pos.stm) && k == KingSquare(pos.cells, pos.stm)
    requires forall m :: m in ml.items && m.kind == EnPassant ==> pos.View().Top().ep == Some(m.to) && 0 <= Behind(m.to, pos.stm) < 64
    modifies ml
    ensures forall m :: m in ml.items <==> m in old(ml.items) && Kept(pos.View(), k, pinned, m)
    ensures NoRepeats(old(ml.items)) ==> NoRepeats(ml.items)
  {
    hide PassesTest, KingSquare, OneKing;
    ghost var all, p := ml.items, pos.View();
    var i := 0;
    while i < |ml.items|
      invariant 0 <= i <= |ml.items|
      invariant forall m :: m in ml.items ==> m in all
      invariant forall j :: 0 <= j < i ==> Kept(p, k, pinned, ml.items[j])
      invariant forall m :: m in all && Kept(p, k, pinned, m) ==> m in ml.items
      invariant NoRepeats(all) ==> NoRepeats(ml.items)
      decreases |ml.items| - i
    {
      var m := ml.items[i];
      var keep := true;
      if m.from in pinned || m.from == k || m.kind == EnPassant {
        keep := pos.IsLegalGenerated(m, pinned);
      }
      if !keep {
        SwapAndPop(ml, i);
      } else {
        i := i + 1;
      }
    }
  }

  /** Overwrite one move with the last and drop the last. */
  method SwapAndPop(ml: MoveList, i: nat)
    requires i < |ml.items|
    modifies ml
    ensures |ml.items| == |old(ml.items)| - 1
    ensures forall j :: 0 <= j < i ==> ml.items[j] == old(ml.items)[j]
    ensures forall m :: m in ml.items ==> m in old(ml.items)
    ensures forall m :: m in old(ml.items) && m != old(ml.items)[i] ==> m in ml.items
    ensures NoRepeats(old(ml.items)) ==> NoRepeats(ml.items)
  {
    ghost var before := ml.items;
    var last := ml.items[|ml.items| - 1];
    ml.items := ml.items[i := last];
    ml.items := ml.items[..|ml.items| - 1];
    forall m | m in before && m != before[i] ensures m in ml.items {
      var j :| 0 <= j < |before| && before[j] == m;
      assert if j == |before| - 1 then ml.items[i] == m else ml.items[j] == m;
    }
  }
}
