/** The incremental evaluator: two accumulators kept in step with the board, one batch of signed
    rows per move, and an undo journal that rebuilds the inverse batch. */
module Evaluator {
  import opened Types
  import opened Folds
  import opened Rules
  import opened Legality
  import opened Runs
  import opened Positions
  import opened Kernels
  import opened Weights

  /** The network: bias, flat feature table, and the reordered table when it could be built. */
  datatype Net = Net(h: int, bias: seq<int>, flat: seq<int>, table: Option<seq<int>>, perm: seq<int>) {
    ghost predicate Ok() {
      && Table(flat, h) && |bias| == h && Int16(bias) && SquareOrder(perm)
      && (table.Some? ==> Boot(flat, table.value, h))
    }
  }

  /** The flat-table weight of a piece in one lane of one side's accumulator. */
  function FlatWeight(net: Net, view: Color, lane: int, s: Square, p: Piece): int {
    if Table(net.flat, net.h) && 0 <= lane < net.h then Row(net.flat, FeatureRow(view, s, p), net.h)[lane] else 0
  }

  function WeightOf(net: Net, view: Color, lane: int): (Square, Piece) -> int {
    (s: Square, p: Piece) => FlatWeight(net, view, lane, s, p)
  }

  /** The value from scratch: the bias plus one flat row for every piece, modulo 2^16. */
  ghost predicate Accumulates(net: Net, view: Color, vals: seq<int>, cells: Cells)
    requires net.Ok()
  {
    |vals| == net.h && forall l :: 0 <= l < net.h ==> vals[l] == Wrap16(net.bias[l] + Total(WeightOf(net, view, l), cells))
  }

  /** A board has exactly one pair of accumulators. */
  lemma AccumulatesUnique(net: Net, view: Color, x: seq<int>, y: seq<int>, cells: Cells)
    requires net.Ok() && Accumulates(net, view, x, cells) && Accumulates(net, view, y, cells)
    ensures x == y
  {
  }

  // ---- journals ----

  /** One recorded event, in undo form: `put` asks for the piece back, otherwise it goes away. */
  datatype Undo = Undo(square: Square, piece: Piece, put: bool)

  predicate Lawful(cells: Cells, u: Undo) {
    if u.put then u.square in cells && cells[u.square] == u.piece else u.square !in cells
  }

  /** The board after the event itself. */
  function Event(cells: Cells, u: Undo): Cells {
    if u.put then Remove(cells, u.square) else Put(cells, u.square, u.piece)
  }

  /** The recorded events, in order, turn `before` into `after`. */
  ghost predicate Leads(before: Cells, journal: seq<Undo>, after: Cells) {
    if journal == [] then before == after
    else
      var last := |journal| - 1;
      exists mid :: Leads(before, journal[..last], mid) && Lawful(mid, journal[last]) && after == Event(mid, journal[last])
  }

  function Effect(f: (Square, Piece) -> int, journal: seq<Undo>): int {
    if journal == [] then 0
    else
      var u := journal[|journal| - 1];
      Effect(f, journal[..|journal| - 1]) + if u.put then -f(u.square, u.piece) else f(u.square, u.piece)
  }

  /** What a journal says was removed and added accounts for the whole change of a board total. */
  lemma {:induction false} JournalAccounts(f: (Square, Piece) -> int, before: Cells, journal: seq<Undo>, after: Cells)
    requires Leads(before, journal, after)
    ensures Total(f, after) == Total(f, before) + Effect(f, journal)
  {
    hide Total;
    if journal != [] {
      var last := |journal| - 1;
      var mid :| Leads(before, journal[..last], mid) && Lawful(mid, journal[last]) && after == Event(mid, journal[last]);
      JournalAccounts(f, before, journal[..last], mid);
      var u := journal[last];
      if u.put {
        TotalRemove(f, mid, u.square);
      } else {
        TotalPut(f, mid, u.square, u.piece);
      }
    }
  }

  // ---- batches ----

  /** The signed pair of rows of one piece. */
  function RowsOf(net: Net, s: Square, p: Piece, add: bool): Delta
    requires Table(net.flat, net.h)
  {
    Delta(Row(net.flat, FeatureRow(WHITE, s, p), net.h), Row(net.flat, FeatureRow(BLACK, s, p), net.h), add)
  }

  /** The batch a journal was recorded with. */
  function Batch(net: Net, journal: seq<Undo>): (ops: seq<Delta>)
    requires Table(net.flat, net.h)
    ensures |ops| == |journal| && Covers(ops, net.h)
  {
    if journal == [] then []
    else
      var u := journal[|journal| - 1];
      Batch(net, journal[..|journal| - 1]) + [RowsOf(net, u.square, u.piece, !u.put)]
  }

  function ViewOf(white: bool): Color {
    if white then WHITE else BLACK
  }

  lemma {:induction false} BatchChange(net: Net, journal: seq<Undo>, white: bool, lane: nat)
    requires Table(net.flat, net.h) && lane < net.h
    ensures Change(Batch(net, journal), net.h, white, lane) == Effect(WeightOf(net, ViewOf(white), lane), journal)
  {
    if journal != [] {
      var last := |journal| - 1;
      BatchChange(net, journal[..last], white, lane);
      assert Batch(net, journal)[..last] == Batch(net, journal[..last]);
    }
  }

  /** A batch worth the change of the board totals keeps the accumulator right. */
  lemma AccumulatesNext(net: Net, white: bool, old': seq<int>, new': seq<int>, ops: seq<Delta>, before: Cells, after: Cells)
    requires net.Ok() && Accumulates(net, ViewOf(white), old', before) && Applied(old', new', ops, white)
    requires forall l :: 0 <= l < net.h ==>
      Change(ops, net.h, white, l) == Total(WeightOf(net, ViewOf(white), l), after) - Total(WeightOf(net, ViewOf(white), l), before)
    ensures Accumulates(net, ViewOf(white), new', after)
  {
    hide Wrap16, Change, Total, WeightOf, Row, Table, Boot;
    forall l | 0 <= l < net.h ensures new'[l] == Wrap16(net.bias[l] + Total(WeightOf(net, ViewOf(white), l), after)) {
      WrapAdd(net.bias[l] + Total(WeightOf(net, ViewOf(white), l), before), Change(ops, net.h, white, l));
    }
  }

  /** The inverse batch of a journal in the kernels' order: removals first, additions last. */
  function Inverse(net: Net, journal: seq<Undo>, add: bool): (ops: seq<Delta>)
    requires Table(net.flat, net.h)
    ensures |ops| <= |journal| && Covers(ops, net.h)
  {
    if journal == [] then []
    else
      var u := journal[|journal| - 1];
      Inverse(net, journal[..|journal| - 1], add) + if u.put == add then [RowsOf(net, u.square, u.piece, add)] else []
  }

  lemma {:induction false} InverseChange(net: Net, journal: seq<Undo>, white: bool, lane: nat)
    requires Table(net.flat, net.h) && lane < net.h
    ensures |Inverse(net, journal, false)| + |Inverse(net, journal, true)| == |journal|
    ensures Change(Inverse(net, journal, false), net.h, white, lane) + Change(Inverse(net, journal, true), net.h, white, lane) ==
      -Effect(WeightOf(net, ViewOf(white), lane), journal)
  {
    if journal != [] {
      var last := |journal| - 1;
      var u := journal[last];
      InverseChange(net, journal[..last], white, lane);
      var rows := RowsOf(net, u.square, u.piece, u.put);
      SignedRows(net, u.square, u.piece, u.put, white, lane);
      InverseStep(net, journal);
      ChangeConcat(Inverse(net, journal[..last], u.put), [rows], net.h, white, lane);
      ChangeOne(rows, net.h, white, lane);
      hide Row, Table, RowsOf, Signed, Change, Inverse, WeightOf, FlatWeight;
    }
  }

  lemma InverseStep(net: Net, journal: seq<Undo>)
    requires Table(net.flat, net.h) && journal != []
    ensures
      var last := |journal| - 1;
      var u := journal[last];
      && Inverse(net, journal, !u.put) == Inverse(net, journal[..last], !u.put)
      && Inverse(net, journal, u.put) == Inverse(net, journal[..last], u.put) + [RowsOf(net, u.square, u.piece, u.put)]
      && Covers([RowsOf(net, u.square, u.piece, u.put)], net.h)
  {
    hide Row, Table;
  }

  lemma SignedRows(net: Net, s: Square, p: Piece, add: bool, white: bool, lane: nat)
    requires Table(net.flat, net.h) && lane < net.h
    ensures Signed(RowsOf(net, s, p, add), white, lane) ==
      if add then WeightOf(net, ViewOf(white), lane)(s, p) else -WeightOf(net, ViewOf(white), lane)(s, p)
  {
    hide Row, Table;
  }

  /** Undoing the recorded facts takes the board totals back. */
  lemma InverseUndoes(net: Net, before: Cells, journal: seq<Undo>, after: Cells, white: bool, lane: nat)
    requires Table(net.flat, net.h) && lane < net.h && Leads(before, journal, after)
    ensures Covers(Inverse(net, journal, false) + Inverse(net, journal, true), net.h)
    ensures Change(Inverse(net, journal, false) + Inverse(net, journal, true), net.h, white, lane) ==
      Total(WeightOf(net, ViewOf(white), lane), before) - Total(WeightOf(net, ViewOf(white), lane), after)
  {
    JournalAccounts(WeightOf(net, ViewOf(white), lane), before, journal, after);
    InverseChange(net, journal, white, lane);
    ChangeConcat(Inverse(net, journal, false), Inverse(net, journal, true), net.h, white, lane);
  }

  lemma BatchDoes(net: Net, before: Cells, journal: seq<Undo>, after: Cells, white: bool, lane: nat)
    requires Table(net.flat, net.h) && lane < net.h && Leads(before, journal, after)
    ensures Change(Batch(net, journal), net.h, white, lane) ==
      Total(WeightOf(net, ViewOf(white), lane), after) - Total(WeightOf(net, ViewOf(white), lane), before)
  {
    JournalAccounts(WeightOf(net, ViewOf(white), lane), before, journal, after);
    BatchChange(net, journal, white, lane);
  }

  class Eval {
    const net: Net
    /** Whether the fused kernels of the board are in use. */
    const fused: bool
    const white: array<int>
    const black: array<int>

    ghost predicate Ready()
      reads white, black
    {
      net.Ok() && white != black && white.Length == black.Length == net.h && Int16(white[..]) && Int16(black[..])
    }

    /** Both accumulators are what the board is worth from scratch. */
    ghost predicate Agrees(cells: Cells)
      reads white, black
    {
      Ready() && Accumulates(net, WHITE, white[..], cells) && Accumulates(net, BLACK, black[..], cells)
    }

    constructor (net: Net, fused: bool)
      requires net.Ok()
      ensures this.net == net && this.fused == fused && fresh(white) && fresh(black) && Agrees(map[])
    {
      this.net, this.fused := net, fused;
      var w := new int[net.h];
      var b := new int[net.h];
      white, black := w, b;
      new;
      Reset();
    }

    method Reset()
      requires net.Ok() && white != black && white.Length == black.Length == net.h
      modifies white, black
      ensures Agrees(map[]) && white[..] == net.bias && black[..] == net.bias
    {
      for i := 0 to net.h
        invariant forall l :: 0 <= l < i ==> white[l] == net.bias[l] && black[l] == net.bias[l]
      {
        white[i] := net.bias[i];
        black[i] := net.bias[i];
      }
    }

    /** `apply`: the board's kernels or the reference loop. */
    method Update(ops: seq<Delta>)
      requires Ready() && Covers(ops, net.h)
      modifies white, black
      ensures Ready()
      ensures Applied(old(white[..]), white[..], ops, true) && Applied(old(black[..]), black[..], ops, false)
    {
      hide Applied;
      if fused {
        ApplyShapes(white, black, ops);
      } else {
        ApplyScalar(white, black, ops);
      }
      AppliedIsInt16(old(white[..]), white[..], ops, true);
      AppliedIsInt16(old(black[..]), black[..], ops, false);
    }

    /** A batch worth the change from `before` to `after`. */
    method UpdateTo(ops: seq<Delta>, ghost before: Cells, ghost after: Cells)
      requires Agrees(before) && Covers(ops, net.h)
      requires forall white: bool, l :: 0 <= l < net.h ==>
        Change(ops, net.h, white, l) == Total(WeightOf(net, ViewOf(white), l), after) - Total(WeightOf(net, ViewOf(white), l), before)
      modifies white, black
      ensures Agrees(after)
    {
      hide Applied, Accumulates, Int16, Change, Total, WeightOf;
      ghost var w, b := white[..], black[..];
      Update(ops);
      AccumulatesNext(net, true, w, white[..], ops, before, after);
      AccumulatesNext(net, false, b, black[..], ops, before, after);
    }
  }

  // ---- making a move on both ----

  /** The running batch and journal of one move. */
  datatype Log = Log(deltas: seq<Delta>, journal: seq<Undo>)

  ghost predicate Tracks(net: Net, before: Cells, log: Log, mid: Cells) {
    Table(net.flat, net.h) && Leads(before, log.journal, mid) && log.deltas == Batch(net, log.journal)
  }

  lemma EmptyLog(net: Net, before: Cells)
    requires Table(net.flat, net.h)
    ensures Tracks(net, before, Log([], []), before)
  {
  }

  /** `remove_piece` and `add_piece` inside `make_move`: the rows into the batch, the fact into the journal. */
  method Record(net: Net, log: Log, s: Square, p: Piece, put: bool, ghost before: Cells, ghost mid: Cells)
    returns (log': Log, ghost mid': Cells)
    requires net.Ok() && Tracks(net, before, log, mid) && Lawful(mid, Undo(s, p, put))
    ensures Tracks(net, before, log', mid') && mid' == Event(mid, Undo(s, p, put)) && |log'.journal| == |log.journal| + 1
  {
    var d := PushDelta(net.flat, net.table, net.perm, net.h, s, p, !put);
    log' := Log(log.deltas + [d], log.journal + [Undo(s, p, put)]);
    mid' := Event(mid, Undo(s, p, put));
    hide Row, Table, Boot;
    assert log'.journal[..|log.journal|] == log.journal;
  }

  method RecordMove(net: Net, log: Log, from: Square, to: Square, p: Piece, ghost before: Cells, ghost mid: Cells)
    returns (log': Log, ghost mid': Cells)
    requires net.Ok() && Tracks(net, before, log, mid)
    requires from in mid && mid[from] == p && to !in mid && from != to
    ensures Tracks(net, before, log', mid') && mid' == Relocate(mid, from, to) && |log'.journal| == |log.journal| + 2
  {
    hide Tracks, Row, Table, Boot;
    ghost var m0;
    log', m0 := Record(net, log, from, p, true, before, mid);
    log', mid' := Record(net, log', to, p, false, before, m0);
  }

  /** The evaluator's castling cases name the king's home square. */
  predicate CastlesFromHome(stm: Color, m: Move) {
    m.kind == Castling ==>
      m.from == (if stm == WHITE then E1 else E8) && m.to in (if stm == WHITE then {C1, G1} else {C8, G8})
  }

  /** The moves the evaluator takes. */
  predicate Takes(cells: Cells, stm: Color, m: Move) {
    WellTyped(cells, stm, m) && m.kind != Untyped && CastlesFromHome(stm, m)
  }

  /** The board after a move, as the events record it. */
  lemma EventsMakeMove(cells: Cells, stm: Color, m: Move)
    requires Takes(cells, stm, m)
    ensures m.kind == Normal || m.kind == DoublePush ==> NextCells(cells, stm, m) == Relocate(cells, m.from, m.to)
    ensures m.kind == Capture ==> NextCells(cells, stm, m) == Relocate(Remove(cells, m.to), m.from, m.to)
    ensures m.kind == EnPassant ==>
      NextCells(cells, stm, m) == Put(Remove(Remove(cells, m.from), Behind(m.to, stm)), m.to, Piece(PAWN, stm))
    ensures m.kind == Promotion ==> NextCells(cells, stm, m) == Put(Remove(cells, m.from), m.to, Piece(m.promotion, stm))
    ensures m.kind == CapturePromotion ==>
      NextCells(cells, stm, m) == Put(Remove(Remove(cells, m.to), m.from), m.to, Piece(m.promotion, stm))
  {
  }

  /** The switch of `make_move`: at most four recorded events, whose effect is the move. */
  method Collect(net: Net, pos: Position, m: Move) returns (log: Log)
    requires net.Ok() && pos.Valid() && Takes(pos.cells, pos.stm, m)
    ensures Tracks(net, pos.cells, log, NextCells(pos.cells, pos.stm, m)) && |log.journal| <= 4
  {
    hide Row, Table, Boot;
    var moving := pos.PieceTypeOn(m.from);
    var captured := pos.PieceTypeOn(m.to);
    var us, them := pos.stm, Other(pos.stm);
    ghost var before, mid := pos.cells, pos.cells;
    log := Log([], []);
    EmptyLog(net, before);
    EventsMakeMove(before, us, m);
    hide Tracks, NextCells, Positions.Position.Encodes;
    match m.kind {
      case Normal =>
        log, mid := RecordMove(net, log, m.from, m.to, Piece(moving.value, us), before, mid);
      case DoublePush =>
        log, mid := RecordMove(net, log, m.from, m.to, Piece(moving.value, us), before, mid);
      case Capture =>
        log, mid := Record(net, log, m.to, Piece(captured.value, them), true, before, mid);
        log, mid := RecordMove(net, log, m.from, m.to, Piece(moving.value, us), before, mid);
      case EnPassant =>
        log, mid := Record(net, log, m.from, Piece(PAWN, us), true, before, mid);
        log, mid := Record(net, log, Behind(m.to, us), Piece(PAWN, them), true, before, mid);
        log, mid := Record(net, log, m.to, Piece(PAWN, us), false, before, mid);
      case Castling =>
        log, mid := CollectCastling(net, us, m, before);
      case Promotion =>
        log, mid := Record(net, log, m.from, Piece(PAWN, us), true, before, mid);
        log, mid := Record(net, log, m.to, Piece(m.PromotionType().value, us), false, before, mid);
      case CapturePromotion =>
        log, mid := Record(net, log, m.to, Piece(captured.value, them), true, before, mid);
        log, mid := Record(net, log, m.from, Piece(PAWN, us), true, before, mid);
        log, mid := Record(net, log, m.to, Piece(m.PromotionType().value, us), false, before, mid);
    }
  }

  /** The four castling cases, by the king's destination. */
  method CollectCastling(net: Net, us: Color, m: Move, ghost before: Cells) returns (log: Log, ghost mid: Cells)
    requires net.Ok() && Takes(before, us, m) && m.kind == Castling
    ensures Tracks(net, before, log, mid) && mid == NextCells(before, us, m) && |log.journal| == 4
  {
    match m.to {
      case 2 => log, mid := RecordCastling(net, E1, A1, C1, D1, us, before);
      case 6 => log, mid := RecordCastling(net, E1, H1, G1, F1, us, before);
      case 58 => log, mid := RecordCastling(net, E8, A8, C8, D8, us, before);
      case _ => log, mid := RecordCastling(net, E8, H8, G8, F8, us, before);
    }
  }

  method RecordCastling(net: Net, kingFrom: Square, rookFrom: Square, kingTo: Square, rookTo: Square, us: Color, ghost before: Cells)
    returns (log: Log, ghost mid: Cells)
    requires net.Ok() && Holds(before, kingFrom, KING, us) && Holds(before, rookFrom, ROOK, us)
    requires kingTo !in before && rookTo !in before && kingTo != rookTo
    ensures Tracks(net, before, log, mid) && |log.journal| == 4
    ensures mid == Relocate(Relocate(before, kingFrom, kingTo), rookFrom, rookTo)
  {
    hide Row, Table, Boot;
    mid := before;
    log := Log([], []);
    EmptyLog(net, before);
    hide Tracks;
    log, mid := Record(net, log, kingFrom, Piece(KING, us), true, before, mid);
    log, mid := Record(net, log, rookFrom, Piece(ROOK, us), true, before, mid);
    log, mid := Record(net, log, kingTo, Piece(KING, us), false, before, mid);
    log, mid := Record(net, log, rookTo, Piece(ROOK, us), false, before, mid);
  }

  /** `make_move` on evaluator and position. */
  method MakeMove(e: Eval, pos: Position, m: Move) returns (journal: seq<Undo>)
    requires pos.Valid() && e.Agrees(pos.cells) && Takes(pos.cells, pos.stm, m)
    modifies e.white, e.black
    modifies pos`cells, pos`stm, pos`fullmoves, pos`ply, pos`history, pos.typeBb, pos.colorBb
    ensures pos.Valid() && pos.View() == Make(pos.z, old(pos.View()), m)
    ensures e.Agrees(pos.cells)
    ensures Leads(old(pos.cells), journal, pos.cells) && |journal| <= 4
  {
    ghost var before, after := pos.cells, NextCells(pos.cells, pos.stm, m);
    var log := Collect(e.net, pos, m);
    BatchChanges(e.net, before, log, after);
    hide Tracks, Leads, Batch, Change, Total, WeightOf, Accumulates, WellTyped, NextCells, Row, Table, Boot, SquareOrder, Int16;
    e.UpdateTo(log.deltas, before, after);
    hide *;
    pos.MakeMove(m);
    journal := log.journal;
  }

  lemma BatchChanges(net: Net, before: Cells, log: Log, after: Cells)
    requires net.Ok() && Tracks(net, before, log, after)
    ensures Leads(before, log.journal, after) && Covers(log.deltas, net.h)
    ensures forall white: bool, l :: 0 <= l < net.h ==>
      Change(log.deltas, net.h, white, l) == Total(WeightOf(net, ViewOf(white), l), after) - Total(WeightOf(net, ViewOf(white), l), before)
  {
    hide Change, Total, WeightOf, Leads, Row, Table, Boot;
    forall white: bool, l | 0 <= l < net.h
      ensures Change(log.deltas, net.h, white, l) == Total(WeightOf(net, ViewOf(white), l), after) - Total(WeightOf(net, ViewOf(white), l), before)
    {
      BatchDoes(net, before, log.journal, after, white, l);
    }
  }

  /** One pass over the journal: the facts with this sign, inverted, onto the batch. */
  method InversePass(net: Net, journal: seq<Undo>, add: bool) returns (ops: seq<Delta>)
    requires net.Ok()
    ensures ops == Inverse(net, journal, add)
  {
    hide Row, Table, Boot, SquareOrder;
    ops := [];
    for i := 0 to |journal|
      invariant ops == Inverse(net, journal[..i], add)
    {
      assert journal[..i + 1][..i] == journal[..i];
      if journal[i].put == add {
        var d := PushDelta(net.flat, net.table, net.perm, net.h, journal[i].square, journal[i].piece, add);
        ops := ops + [d];
      }
    }
    assert journal[..|journal|] == journal;
  }

  /** `unmake_move` on evaluator and position: the inverse batch never overflows its four slots. */
  method UnmakeMove(e: Eval, pos: Position, journal: seq<Undo>)
    requires pos.Valid() && e.Agrees(pos.cells) && CanUnmake(pos.View()) && |journal| <= 4
    requires Leads(Unmake(pos.View()).cells, journal, pos.cells)
    modifies e.white, e.black
    modifies pos`cells, pos`stm, pos`fullmoves, pos`ply, pos`history, pos.typeBb, pos.colorBb
    ensures pos.Valid() && pos.View() == Unmake(old(pos.View()))
    ensures e.Agrees(pos.cells)
  {
    ghost var before, after := Unmake(pos.View()).cells, pos.cells;
    var removals := InversePass(e.net, journal, false);
    var additions := InversePass(e.net, journal, true);
    InverseChanges(e.net, before, journal, after);
    assert |removals + additions| <= 4;
    hide Leads, Inverse, Change, Total, WeightOf, Accumulates, Row, Table, Boot, SquareOrder, Int16;
    e.UpdateTo(removals + additions, after, before);
    hide *;
    pos.UnmakeMove();
  }

  lemma InverseChanges(net: Net, before: Cells, journal: seq<Undo>, after: Cells)
    requires net.Ok() && Leads(before, journal, after)
    ensures Covers(Inverse(net, journal, false) + Inverse(net, journal, true), net.h)
    ensures |Inverse(net, journal, false)| + |Inverse(net, journal, true)| == |journal|
    ensures forall white: bool, l :: 0 <= l < net.h ==>
      Change(Inverse(net, journal, false) + Inverse(net, journal, true), net.h, white, l) ==
      Total(WeightOf(net, ViewOf(white), l), before) - Total(WeightOf(net, ViewOf(white), l), after)
  {
    hide Change, Total, WeightOf, Leads, Row, Boot, Inverse;
    InverseChange(net, journal, true, 0);
    forall white: bool, l | 0 <= l < net.h
      ensures Change(Inverse(net, journal, false) + Inverse(net, journal, true), net.h, white, l) ==
        Total(WeightOf(net, ViewOf(white), l), before) - Total(WeightOf(net, ViewOf(white), l), after)
    {
      InverseUndoes(net, before, journal, after, white, l);
    }
  }

  // ---- from scratch ----

  /** The batch adds the rows of exactly the pieces on `done`. */
  ghost predicate Covered(net: Net, cells: Cells, ops: seq<Delta>, done: Bitboard) {
    && 0 <= net.h && Covers(ops, net.h) && |ops| == |done| && done <= cells.Keys
    && forall white: bool, l :: 0 <= l < net.h ==> Change(ops, net.h, white, l) == Sum(WeightOf(net, ViewOf(white), l), cells, done)
  }

  lemma CoveredNone(net: Net, cells: Cells)
    requires 0 <= net.h
    ensures Covered(net, cells, [], {})
  {
  }

  lemma CoverOne(net: Net, cells: Cells, ops: seq<Delta>, done: Bitboard, s: Square)
    requires Table(net.flat, net.h) && Covered(net, cells, ops, done) && s in cells && s !in done
    ensures Covered(net, cells, ops + [RowsOf(net, s, cells[s], true)], done + {s})
  {
    var rows := RowsOf(net, s, cells[s], true);
    assert Covers([rows], net.h);
    hide Row, Table, Change, Sum, RowsOf, Signed, WeightOf;
    forall white: bool, l | 0 <= l < net.h
      ensures Covers(ops + [rows], net.h)
      ensures Change(ops + [rows], net.h, white, l) == Sum(WeightOf(net, ViewOf(white), l), cells, done + {s})
    {
      ChangeConcat(ops, [rows], net.h, white, l);
      ChangeOne(rows, net.h, white, l);
      SignedRows(net, s, cells[s], true, white, l);
      SumTake(WeightOf(net, ViewOf(white), l), cells, done + {s}, s);
      assert done + {s} - {s} == done;
    }
  }

  method AddPiece(net: Net, ops: seq<Delta>, s: Square, p: Piece, ghost cells: Cells, ghost done: Bitboard) returns (ops': seq<Delta>)
    requires net.Ok() && Covered(net, cells, ops, done) && s in cells && cells[s] == p && s !in done
    ensures Covered(net, cells, ops', done + {s}) && |ops'| == |ops| + 1
  {
    hide Covered, Row, Table, Boot, SquareOrder, FeatureRow;
    var d := PushDelta(net.flat, net.table, net.perm, net.h, s, p, true);
    CoverOne(net, cells, ops, done, s);
    ops' := ops + [d];
  }

  /** One piece board of `set`: pop squares until it is empty or the batch is full. */
  method CoverKind(net: Net, bb: Bitboard, ops: seq<Delta>, k: PieceType, c: Color, ghost cells: Cells, ghost done: Bitboard)
    returns (ops': seq<Delta>, ghost done': Bitboard)
    requires net.Ok() && Covered(net, cells, ops, done) && |ops| <= 32
    requires done !! bb && forall s :: s in bb ==> s in cells && cells[s] == Piece(k, c)
    ensures Covered(net, cells, ops', done') && |ops| <= |ops'| <= 32
    ensures done <= done' <= done + bb && (|ops'| < 32 ==> done' == done + bb)
    ensures |ops| == 32 ==> done' == done
    ensures forall s, t :: s in done' && s in bb && t in bb && t !in done' ==> s < t
  {
    var left := bb;
    hide Covered, Net.Ok;
    ops', done' := ops, done;
    while left != {} && |ops'| < 32
      invariant left <= bb && done' == done + (bb - left) && (|ops| == 32 ==> left == bb)
      invariant forall s, t :: s in bb - left && t in left ==> s < t
      invariant Covered(net, cells, ops', done') && |ops| <= |ops'| <= 32
      decreases left
    {
      var s := Lowest(left);
      left := left - {s};
      ops' := AddPiece(net, ops', s, Piece(k, c), cells, done');
      done' := done' + {s};
    }
  }

  function Only(cells: Cells, squares: Bitboard): Cells {
    map s | s in cells && s in squares :: cells[s]
  }

  lemma CoveredTotals(net: Net, cells: Cells, ops: seq<Delta>, done: Bitboard)
    requires Covered(net, cells, ops, done)
    ensures forall white: bool, l :: 0 <= l < net.h ==>
      Change(ops, net.h, white, l) == Total(WeightOf(net, ViewOf(white), l), Only(cells, done)) - Total(WeightOf(net, ViewOf(white), l), map[])
  {
    hide Change, WeightOf, FlatWeight;
    assert Only(cells, done).Keys == done;
    forall white: bool, l | 0 <= l < net.h
      ensures Total(WeightOf(net, ViewOf(white), l), Only(cells, done)) == Sum(WeightOf(net, ViewOf(white), l), cells, done)
    {
      SumAgree(WeightOf(net, ViewOf(white), l), Only(cells, done), cells, done);
    }
  }

  lemma SubsetSize(a: Bitboard, b: Bitboard)
    requires a <= b
    ensures |a| <= |b| && (|a| == |b| ==> a == b)
  {
    if a != b {
      var x :| x in b && x !in a;
      SubsetSize(a, b - {x});
    }
  }

  /** The order of `set`: type by type, White first, then by square. */
  predicate Earlier(cells: Cells, s: Square, t: Square)
    requires s in cells && t in cells
  {
    || cells[s].kind < cells[t].kind
    || (cells[s].kind == cells[t].kind && cells[s].color == WHITE && cells[t].color == BLACK)
    || (cells[s] == cells[t] && s < t)
  }

  /** These pieces are the first in that order. */
  predicate FirstOf(cells: Cells, done: Bitboard) {
    done <= cells.Keys && forall s, t :: s in done && t in cells && t !in done ==> Earlier(cells, s, t)
  }

  /** `set`: with at most 32 pieces the accumulators are rebuilt for the whole board; with more,
      for the first 32 of them. */
  method Set(e: Eval, pos: Position)
    requires pos.Valid() && e.Ready()
    modifies e.white, e.black
    ensures e.Ready()
    ensures |pos.cells| <= 32 ==> e.Agrees(pos.cells)
    ensures |pos.cells| > 32 ==> exists done: Bitboard :: FirstOf(pos.cells, done) && |done| == 32 && e.Agrees(Only(pos.cells, done))
  {
    e.Reset();
    var ops, done := CoverAll(e.net, pos);
    CoveredTotals(e.net, pos.cells, ops, done);
    hide Change, Total, WeightOf, Accumulates, Row, Table, Boot, SquareOrder, Int16;
    e.UpdateTo(ops, map[], Only(pos.cells, done));
    SubsetSize(done, pos.cells.Keys);
    assert |pos.cells.Keys| == |pos.cells|;
    if |pos.cells| <= 32 {
      assert done == pos.cells.Keys;
      assert Only(pos.cells, done) == pos.cells;
    }
  }

  function Below(cells: Cells, k: int): Bitboard {
    set s | s in cells && cells[s].kind < k
  }

  lemma BelowStep(cells: Cells, k: PieceType)
    ensures
      var white, black := OfKind(cells, k) * Side(cells, WHITE), OfKind(cells, k) * Side(cells, BLACK);
      && Below(cells, k + 1) == Below(cells, k) + white + black
      && Below(cells, k) !! white && Below(cells, k) + white !! black
      && (forall s :: s in white ==> s in cells && cells[s] == Piece(k, WHITE))
      && (forall s :: s in black ==> s in cells && cells[s] == Piece(k, BLACK))
  {
  }

  lemma FirstWithWhite(cells: Cells, k: PieceType, done: Bitboard)
    requires
      var white := OfKind(cells, k) * Side(cells, WHITE);
      Below(cells, k) <= done <= Below(cells, k) + white && forall s, t :: s in done && s in white && t in white && t !in done ==> s < t
    ensures FirstOf(cells, done)
  {
    forall s, t | s in done && t in cells && t !in done ensures s in cells && Earlier(cells, s, t) {
      assert cells[t].kind >= k;
    }
  }

  lemma FirstWithBlack(cells: Cells, k: PieceType, done: Bitboard)
    requires
      var white, black := OfKind(cells, k) * Side(cells, WHITE), OfKind(cells, k) * Side(cells, BLACK);
      && Below(cells, k) + white <= done <= Below(cells, k) + white + black
      && forall s, t :: s in done && s in black && t in black && t !in done ==> s < t
    ensures FirstOf(cells, done)
  {
    forall s, t | s in done && t in cells && t !in done ensures s in cells && Earlier(cells, s, t) {
      assert cells[t].kind >= k;
    }
  }

  method CoverAll(net: Net, pos: Position) returns (ops: seq<Delta>, ghost done: Bitboard)
    requires net.Ok() && pos.Valid()
    ensures Covered(net, pos.cells, ops, done) && |ops| <= 32
    ensures |ops| < 32 ==> done == pos.cells.Keys
    ensures FirstOf(pos.cells, done)
  {
    ops, done := [], {};
    CoveredNone(net, pos.cells);
    assert Below(pos.cells, 0) == {} && Below(pos.cells, 6) == pos.cells.Keys;
    hide Covered, Row, Table, Boot, SquareOrder, Net.Ok, OfKind, Side, Below;
    for k := 0 to 6
      invariant Covered(net, pos.cells, ops, done) && |ops| <= 32 && FirstOf(pos.cells, done)
      invariant done <= Below(pos.cells, k) && (|ops| < 32 ==> done == Below(pos.cells, k))
    {
      BelowStep(pos.cells, k);
      ghost var before := done;
      ops, done := CoverKind(net, pos.typeBb[k] * pos.colorBb[WHITE], ops, k, WHITE, pos.cells, done);
      if before == Below(pos.cells, k) {
        FirstWithWhite(pos.cells, k, done);
      }
      before := done;
      ops, done := CoverKind(net, pos.typeBb[k] * pos.colorBb[BLACK], ops, k, BLACK, pos.cells, done);
      if before == Below(pos.cells, k) + OfKind(pos.cells, k) * Side(pos.cells, WHITE) {
        FirstWithBlack(pos.cells, k, done);
      }
    }
  }

  // ---- whole runs ----

  lemma LegalIsTaken(z: Randoms, p: Pos, m: Move)
    requires Sound(p) && Legal(p, m)
    ensures Takes(p.cells, p.stm, m)
  {
    LegalIsPlayable(p, m);
  }

  /** What the search keeps on its stack for one pending step: the journal of a move, or nothing
      for a null move. */
  datatype Pending = Moved(journal: seq<Undo>) | Skipped

  ghost predicate Bridges(p: Pos, pending: Pending, q: Pos) {
    match pending
    case Moved(journal) => |journal| <= 4 && Leads(p.cells, journal, q.cells)
    case Skipped => p.cells == q.cells
  }

  ghost predicate Stacked(z: Randoms, line: seq<Pos>, stack: seq<Pending>) {
    Line(z, line) && |line| == |stack| + 1 && forall i :: 0 <= i < |stack| ==> Bridges(line[i], stack[i], line[i + 1])
  }

  lemma StackedTop(z: Randoms, line: seq<Pos>, stack: seq<Pending>)
    requires Stacked(z, line, stack)
    ensures |line| == |stack| + 1 && Sound(line[|line| - 1]) && HashOk(z, line[|line| - 1]) && line[|line| - 1].history != []
  {
    LineIsSound(z, line, |line| - 1);
    hide Step, Bridges, HashOk;
  }

  lemma StackedGrow(z: Randoms, line: seq<Pos>, stack: seq<Pending>, q: Pos, pending: Pending)
    requires Stacked(z, line, stack) && Step(z, line[|line| - 1], q) && Bridges(line[|line| - 1], pending, q)
    ensures Stacked(z, line + [q], stack + [pending])
  {
    hide Step, Bridges, Sound, HashOk;
    var longer := line + [q];
    forall i | 0 <= i < |longer| - 1 ensures Step(z, longer[i], longer[i + 1]) && Bridges(longer[i], (stack + [pending])[i], longer[i + 1]) {
      assert i < |line| - 1 ==> Step(z, line[i], line[i + 1]) && Bridges(line[i], stack[i], line[i + 1]);
    }
  }

  lemma StackedShrink(z: Randoms, line: seq<Pos>, stack: seq<Pending>)
    requires Stacked(z, line, stack) && stack != []
    ensures Stacked(z, line[..|line| - 1], stack[..|stack| - 1])
    ensures Bridges(line[|line| - 2], stack[|stack| - 1], line[|line| - 1])
    ensures CanUnmake(line[|line| - 1]) && Unmake(line[|line| - 1]) == line[|line| - 2]
  {
    hide Bridges, Sound, HashOk, CanUnmake, Unmake, Make, MakeNull, NullStep, MoveStep;
    var last := |line| - 1;
    LineIsSound(z, line, last - 1);
    assert Step(z, line[last - 1], line[last]);
    StepKeepsSound(z, line[last - 1], line[last]);
  }

  /** One operation of the search on evaluator, position and stack. */
  method Perform(e: Eval, pos: Position, op: Op, stack: seq<Pending>, ghost line: seq<Pos>) returns (stack': seq<Pending>, ghost line': seq<Pos>)
    requires pos.Valid() && e.Agrees(pos.cells)
    requires Stacked(pos.z, line, stack) && line[|line| - 1] == pos.View() && Enabled(pos.View(), |stack|, op)
    modifies e.white, e.black
    modifies pos`cells, pos`stm, pos`fullmoves, pos`ply, pos`history, pos.typeBb, pos.colorBb
    ensures pos.Valid() && e.Agrees(pos.cells)
    ensures (pos.View(), |stack'|) == Apply(pos.z, old(pos.View()), |stack|, op)
    ensures Stacked(pos.z, line', stack') && line' != [] && line'[|line'| - 1] == pos.View()
  {
    hide *;
    StackedTop(pos.z, line, stack);
    if op.Up? {
      stack', line' := Ascend(e, pos, stack, line);
    } else {
      DownIsStep(pos.z, pos.View(), |stack|, op);
      var pending := Descend(e, pos, |stack|, op);
      StackedGrow(pos.z, line, stack, pos.View(), pending);
      stack', line' := stack + [pending], line + [pos.View()];
    }
  }

  /** Take the last pending step off the stack and back. */
  method Ascend(e: Eval, pos: Position, stack: seq<Pending>, ghost line: seq<Pos>) returns (stack': seq<Pending>, ghost line': seq<Pos>)
    requires pos.Valid() && e.Agrees(pos.cells)
    requires Stacked(pos.z, line, stack) && line[|line| - 1] == pos.View() && Enabled(pos.View(), |stack|, Up)
    modifies e.white, e.black
    modifies pos`cells, pos`stm, pos`fullmoves, pos`ply, pos`history, pos.typeBb, pos.colorBb
    ensures pos.Valid() && e.Agrees(pos.cells)
    ensures (pos.View(), |stack'|) == Apply(pos.z, old(pos.View()), |stack|, Up)
    ensures Stacked(pos.z, line', stack') && line' != [] && line'[|line'| - 1] == pos.View()
  {
    hide *;
    StackedTop(pos.z, line, stack);
    UpIsUnmake(pos.z, pos.View(), |stack|);
    StackedShrink(pos.z, line, stack);
    TakeBack(e, pos, stack[|stack| - 1]);
    stack', line' := stack[..|stack| - 1], line[..|line| - 1];
  }

  lemma UpIsUnmake(z: Randoms, p: Pos, depth: nat)
    requires Enabled(p, depth, Up)
    ensures depth > 0 && CanUnmake(p) && Apply(z, p, depth, Up) == (Unmake(p), depth - 1)
  {
  }

  /** Make the move or the null move. */
  method Descend(e: Eval, pos: Position, depth: nat, op: Op) returns (pending: Pending)
    requires pos.Valid() && e.Agrees(pos.cells) && Sound(pos.View()) && !op.Up? && Enabled(pos.View(), depth, op)
    modifies e.white, e.black
    modifies pos`cells, pos`stm, pos`fullmoves, pos`ply, pos`history, pos.typeBb, pos.colorBb
    ensures pos.Valid() && e.Agrees(pos.cells)
    ensures (pos.View(), depth + 1) == Apply(pos.z, old(pos.View()), depth, op)
    ensures Bridges(old(pos.View()), pending, pos.View())
  {
    hide Legal, WellTyped, Make, MakeNull, Sound, Leads, Accumulates, Int16, Positions.Position.Valid;
    match op {
      case Down(m) =>
        LegalIsTaken(pos.z, pos.View(), m);
        var journal := MakeMove(e, pos, m);
        pending := Moved(journal);
      case Skip =>
        SkipBridges(pos.z, pos.View());
        pos.MakeNullMove();
        pending := Skipped;
    }
  }

  /** Undo the last pending step: with its journal, or on the position alone. */
  method TakeBack(e: Eval, pos: Position, pending: Pending)
    requires pos.Valid() && e.Agrees(pos.cells) && CanUnmake(pos.View()) && Bridges(Unmake(pos.View()), pending, pos.View())
    modifies e.white, e.black
    modifies pos`cells, pos`stm, pos`fullmoves, pos`ply, pos`history, pos.typeBb, pos.colorBb
    ensures pos.Valid() && e.Agrees(pos.cells) && pos.View() == Unmake(old(pos.View()))
  {
    hide Unmake, CanUnmake, Leads, Accumulates, Int16, Positions.Position.Valid;
    if pending.Moved? {
      UnmakeMove(e, pos, pending.journal);
    } else {
      pos.UnmakeMove();
    }
  }

  lemma SkipBridges(z: Randoms, p: Pos)
    requires p.history != []
    ensures Bridges(p, Skipped, MakeNull(z, p))
  {
  }

  method PerformAll(e: Eval, pos: Position, ops: seq<Op>, ghost q: Pos, ghost end: nat)
    requires pos.Valid() && e.Agrees(pos.cells) && Line(pos.z, [pos.View()])
    requires Runs.Runs(pos.z, pos.View(), 0, ops, q, end)
    modifies e.white, e.black
    modifies pos`cells, pos`stm, pos`fullmoves, pos`ply, pos`history, pos.typeBb, pos.colorBb
    ensures pos.Valid() && pos.View() == q && e.Agrees(q.cells)
  {
    ghost var line := [pos.View()];
    var stack: seq<Pending> := [];
    assert Stacked(pos.z, line, stack);
    hide Stacked, Enabled, Runs.Apply, Positions.Position.Valid, Eval.Agrees, Line;
    for i := 0 to |ops|
      invariant pos.Valid() && e.Agrees(pos.cells)
      invariant Stacked(pos.z, line, stack) && line != [] && line[|line| - 1] == pos.View()
      invariant Runs.Runs(pos.z, pos.View(), |stack|, ops[i..], q, end)
    {
      assert ops[i..][0] == ops[i] && ops[i..][1..] == ops[i + 1..];
      stack, line := Perform(e, pos, ops[i], stack, line);
    }
  }

  /** At the end of any run of moves, null moves and unmakes from a sound position, however
      nested, both accumulators are what the board reached is worth from scratch, and it has no
      more pieces than the root. */
  method Run(e: Eval, pos: Position, ops: seq<Op>, ghost q: Pos, ghost end: nat)
    requires pos.Valid() && e.Agrees(pos.cells) && Sound(pos.View()) && HashOk(pos.z, pos.View())
    requires Runs.Runs(pos.z, pos.View(), 0, ops, q, end)
    modifies e.white, e.black
    modifies pos`cells, pos`stm, pos`fullmoves, pos`ply, pos`history, pos.typeBb, pos.colorBb
    ensures pos.Valid() && pos.View() == q && e.Agrees(q.cells) && Sound(q) && HashOk(pos.z, q)
    ensures |q.cells| <= |old(pos.cells)|
    ensures end == 0 ==> pos.View() == old(pos.View()) && e.white[..] == old(e.white[..]) && e.black[..] == old(e.black[..])
  {
    ReachableIsSound(pos.z, pos.View(), ops, q, end);
    ghost var w, b, cells := e.white[..], e.black[..], pos.cells;
    hide Sound, HashOk, Accumulates, Int16, Positions.Position.Valid, Runs.Runs;
    PerformAll(e, pos, ops, q, end);
    if end == 0 {
      AccumulatesUnique(e.net, WHITE, w, e.white[..], cells);
      AccumulatesUnique(e.net, BLACK, b, e.black[..], cells);
    }
  }

  /** `Eval(pos)`: a new evaluator, set up for the board. */
  method Fresh(net: Net, fused: bool, pos: Position) returns (e: Eval)
    requires pos.Valid() && net.Ok()
    ensures fresh(e) && fresh(e.white) && fresh(e.black) && e.net == net && e.Ready()
    ensures |pos.cells| <= 32 ==> e.Agrees(pos.cells)
  {
    hide Positions.Position.Valid, Accumulates, Int16;
    e := new Eval(net, fused);
    Set(e, pos);
  }

  /** From a root of at most 32 pieces, the accumulators at the end of any run are element for
      element those of an evaluator newly set up for the board reached. */
  method RunMatchesFresh(e: Eval, pos: Position, ops: seq<Op>, fused: bool, ghost q: Pos, ghost end: nat) returns (rebuilt: Eval)
    requires pos.Valid() && e.Agrees(pos.cells) && Sound(pos.View()) && HashOk(pos.z, pos.View()) && |pos.cells| <= 32
    requires Runs.Runs(pos.z, pos.View(), 0, ops, q, end)
    modifies e.white, e.black
    modifies pos`cells, pos`stm, pos`fullmoves, pos`ply, pos`history, pos.typeBb, pos.colorBb
    ensures pos.Valid() && pos.View() == q && fresh(rebuilt)
    ensures rebuilt.white[..] == e.white[..] && rebuilt.black[..] == e.black[..]
  {
    hide Sound, HashOk, Accumulates, Int16, Positions.Position.Valid, Runs.Runs;
    Run(e, pos, ops, q, end);
    rebuilt := Fresh(e.net, fused, pos);
    AccumulatesUnique(e.net, WHITE, rebuilt.white[..], e.white[..], q.cells);
    AccumulatesUnique(e.net, BLACK, rebuilt.black[..], e.black[..], q.cells);
  }
}
