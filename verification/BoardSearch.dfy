/** Quiescence search in place, on the position object and the incremental evaluator, against
    minimax over the tree of positions, each valued from scratch. */
module BoardSearch {
  import opened Types
  import opened Rules
  import opened Legality
  import opened Pins
  import opened Draws
  import opened Runs
  import opened Positions
  import opened Folds
  import opened Kernels
  import Weights
  import opened Evaluator
  import opened Quiescence
  import Generators
  import See
  import opened Noisy

  // ---- the tree of a position ----

  /** Keys, network, and the output layer over the mover's and the other side's accumulator. */
  datatype Setting = Setting(z: Randoms, net: Net, out: (seq<int>, seq<int>) -> int) {
    ghost predicate Ok() {
      net.Ok() && forall x, y :: -MAX_NON_MATE <= out(x, y) <= MAX_NON_MATE
    }
  }

  /** An accumulator from scratch. */
  ghost function Lanes(net: Net, view: Color, cells: Cells): (vals: seq<int>)
    requires net.Ok()
    ensures Accumulates(net, view, vals, cells)
  {
    seq(net.h, l requires 0 <= l < net.h => Wrap16(net.bias[l] + Total(WeightOf(net, view, l), cells)))
  }

  ghost function Worth(g: Setting, p: Pos): (v: int)
    requires g.Ok()
    ensures -MAX_NON_MATE <= v <= MAX_NON_MATE
  {
    g.out(Lanes(g.net, p.stm, p.cells), Lanes(g.net, Other(p.stm), p.cells))
  }

  function KindAt(i: nat): MoveType {
    if i == 0 then Untyped else if i == 1 then Normal else if i == 2 then Castling else if i == 3 then EnPassant
    else if i == 4 then Promotion else if i == 5 then DoublePush else if i == 6 then Capture else CapturePromotion
  }

  lemma EveryKind(k: MoveType)
    ensures exists i: nat :: i < 8 && KindAt(i) == k
  {
    assert KindAt(0) == Untyped && KindAt(1) == Normal && KindAt(2) == Castling && KindAt(3) == EnPassant;
    assert KindAt(4) == Promotion && KindAt(5) == DoublePush && KindAt(6) == Capture && KindAt(7) == CapturePromotion;
  }

  ghost function TriedSet(p: Pos): set<Move>
    requires WellFormed(p)
  {
    hide Tried;
    set f: Square, t: Square, k: PieceType, i: nat | i < 8 && Tried(p, Move(f, t, k, KindAt(i))) :: Move(f, t, k, KindAt(i))
  }

  lemma TriedSetHas(p: Pos, m: Move)
    requires WellFormed(p)
    ensures m in TriedSet(p) <==> Tried(p, m)
  {
    hide Tried, WellFormed, KindAt;
    EveryKind(m.kind);
    var i: nat :| i < 8 && KindAt(i) == m.kind;
    assert m == Move(m.from, m.to, m.promotion, KindAt(i));
  }

  ghost function InSomeOrder(s: set<Move>): (list: seq<Move>)
    ensures forall m :: m in list <==> m in s
  {
    if s == {} then [] else var m :| m in s; [m] + InSomeOrder(s - {m})
  }

  /** The tree quiescence search walks: legal captures and promotions, or evasions. */
  ghost function Tree(g: Setting, p: Pos, depth: nat): Node
    requires g.Ok()
    decreases Max(0, DEPTH_LIMIT - depth), 2
  {
    if !WellFormed(p) then Node(0, false, true, false, [])
    else
      Node(Worth(g, p), InCheck(p.cells, p.stm), DrawnHere(p), Stuck(p),
           if depth >= DEPTH_LIMIT then [] else Edges(g, p, depth, InSomeOrder(TriedSet(p))))
  }

  ghost function Edges(g: Setting, p: Pos, depth: nat, list: seq<Move>): (edges: seq<Edge>)
    requires g.Ok() && depth < DEPTH_LIMIT
    ensures |edges| == |list| && forall i :: 0 <= i < |list| ==> edges[i] == EdgeOf(g, p, depth, list[i])
    decreases DEPTH_LIMIT - depth, 1
  {
    seq(|list|, i requires 0 <= i < |list| => EdgeOf(g, p, depth, list[i]))
  }

  ghost function EdgeOf(g: Setting, p: Pos, depth: nat, m: Move): Edge
    requires g.Ok() && depth < DEPTH_LIMIT
    decreases DEPTH_LIMIT - depth, 0
  {
    hide Legal, WellTyped, See.Exchange, Make;
    Edge(if m.from in p.cells then See.Exchange(p.cells, p.stm, m) else 0,
         Legal(p, m),
         if p.history != [] && WellTyped(p.cells, p.stm, m) then Tree(g, Make(g.z, p, m), depth + 1)
         else Node(0, false, true, false, []))
  }

  lemma TreeParts(g: Setting, p: Pos, depth: nat)
    requires g.Ok() && WellFormed(p)
    ensures
      var node := Tree(g, p, depth);
      && node.evaluation == Worth(g, p) && node.inCheck == InCheck(p.cells, p.stm) && node.drawn == DrawnHere(p) && node.stuck == Stuck(p)
      && -MAX_NON_MATE <= Worth(g, p) <= MAX_NON_MATE
      && (depth < DEPTH_LIMIT ==> node.edges == Edges(g, p, depth, InSomeOrder(TriedSet(p))))
  {
    hide InCheck, WellFormed, DrawnHere, Stuck, Worth;
  }

  /** Any list of exactly the moves tried gives the edges of the node. */
  lemma EdgesOfTree(g: Setting, p: Pos, depth: nat, list: seq<Move>)
    requires g.Ok() && WellFormed(p) && depth < DEPTH_LIMIT && forall m :: m in list <==> Tried(p, m)
    ensures SameMoves(Edges(g, p, depth, list), Tree(g, p, depth).edges)
  {
    hide EdgeOf, WellFormed, Tried, TriedSet;
    var all := InSomeOrder(TriedSet(p));
    forall m: Move ensures m in all <==> m in list {
      TriedSetHas(p, m);
    }
    SameEdges(g, p, depth, list, all);
    SameEdges(g, p, depth, all, list);
  }

  lemma SameEdges(g: Setting, p: Pos, depth: nat, a: seq<Move>, b: seq<Move>)
    requires g.Ok() && depth < DEPTH_LIMIT && forall m :: m in a ==> m in b
    ensures forall e :: e in Edges(g, p, depth, a) ==> e in Edges(g, p, depth, b)
  {
    hide EdgeOf;
    forall e | e in Edges(g, p, depth, a) ensures e in Edges(g, p, depth, b) {
      var i :| 0 <= i < |a| && Edges(g, p, depth, a)[i] == e;
      assert a[i] in a;
      var j :| 0 <= j < |b| && b[j] == a[i];
      assert Edges(g, p, depth, b)[j] == e;
    }
  }

  // ---- the value of a position ----

  /** A legal move that is searched: an evasion, or a capture or promotion that loses no material. */
  predicate Searched(p: Pos, m: Move)
    requires WellFormed(p)
  {
    Tried(p, m) && m.from in p.cells && Legal(p, m) && (InCheck(p.cells, p.stm) || See.Exchange(p.cells, p.stm, m) >= 0)
  }

  ghost function ValueOf(g: Setting, p: Pos, depth: nat): int
    requires g.Ok()
  {
    Minimax(Tree(g, p, depth), depth)
  }

  /** A move searched is worth no more than the position it is played in, to the mover. */
  lemma SearchedBelow(g: Setting, p: Pos, depth: nat, m: Move)
    requires g.Ok() && Sound(p) && HashOk(g.z, p) && depth < 127 && !DrawnHere(p) && Searched(p, m)
    ensures WellTyped(p.cells, p.stm, m) && p.history != [] && ValueOf(g, p, depth) >= -ValueOf(g, Make(g.z, p, m), depth + 1)
  {
    SearchedParts(p, m);
    hide *;
    SoundParts(p);
    ChildOf(g, p, depth, m);
    TreeParts(g, p, depth);
    TreeBounded(g, p, depth);
    SearchedIsPlayed(g, p, depth, m);
    ValueIs(g, p, depth);
    ValueIs(g, Make(g.z, p, m), depth + 1);
    MatedScore(depth);
    ValueCases(Tree(g, p, depth), depth);
  }

  lemma SearchedParts(p: Pos, m: Move)
    requires WellFormed(p) && Searched(p, m)
    ensures m.from in p.cells && Legal(p, m) && Tried(p, m)
  {
    hide Legal, Tried, WellFormed, See.Exchange;
  }

  lemma SoundParts(p: Pos)
    requires Sound(p)
    ensures WellFormed(p)
  {
  }

  lemma ValueIs(g: Setting, p: Pos, depth: nat)
    requires g.Ok()
    ensures ValueOf(g, p, depth) == Minimax(Tree(g, p, depth), depth)
  {
    hide Tree, Minimax;
  }

  lemma ChildOf(g: Setting, p: Pos, depth: nat, m: Move)
    requires g.Ok() && Sound(p) && HashOk(g.z, p) && depth < 127 && Legal(p, m) && m.from in p.cells
    ensures p.history != [] && WellTyped(p.cells, p.stm, m)
    ensures EdgeOf(g, p, depth, m).child == Tree(g, Make(g.z, p, m), depth + 1) && EdgeOf(g, p, depth, m).legal
    ensures EdgeOf(g, p, depth, m).see == See.Exchange(p.cells, p.stm, m)
  {
    ChildIsSound(g.z, p, m);
    EdgeSee(g, p, depth, m);
    hide EdgeOf, Tree, Sound, HashOk, Legal, Make, WellTyped, See.Exchange;
  }

  lemma EdgeInTree(g: Setting, p: Pos, depth: nat, m: Move)
    requires g.Ok() && WellFormed(p) && depth < 127 && Tried(p, m)
    ensures EdgeOf(g, p, depth, m) in Tree(g, p, depth).edges
  {
    var list := InSomeOrder(TriedSet(p));
    TriedSetHas(p, m);
    hide EdgeOf, Tried, WellFormed, TriedSet, InSomeOrder;
    var i :| 0 <= i < |list| && list[i] == m;
    assert Edges(g, p, depth, list)[i] == EdgeOf(g, p, depth, m);
  }

  /** And the value is that of standing pat or of a move searched; with neither, of a mate. */
  lemma ValueAttained(g: Setting, p: Pos, depth: nat)
    requires g.Ok() && Sound(p) && HashOk(g.z, p) && depth < 127 && !DrawnHere(p)
    ensures !InCheck(p.cells, p.stm) ==> ValueOf(g, p, depth) >= Worth(g, p)
    ensures (!InCheck(p.cells, p.stm) && ValueOf(g, p, depth) == Worth(g, p)) ||
            (InCheck(p.cells, p.stm) && (forall m :: !Searched(p, m)) && ValueOf(g, p, depth) == -30000 + depth) ||
            exists m :: Searched(p, m) && WellTyped(p.cells, p.stm, m) && ValueOf(g, p, depth) == -ValueOf(g, Make(g.z, p, m), depth + 1)
  {
    hide *;
    SoundParts(p);
    var node := Tree(g, p, depth);
    TreeParts(g, p, depth);
    TreeBounded(g, p, depth);
    ValueIs(g, p, depth);
    MatedScore(depth);
    ValueCases(node, depth);
    if e: Edge :| e in node.edges && Played(node, e) && Minimax(node, depth) == -Minimax(e.child, depth + 1) {
      PlayedEdge(g, p, depth, e);
      var m :| Searched(p, m) && WellTyped(p.cells, p.stm, m) && e.child == Tree(g, Make(g.z, p, m), depth + 1);
      ValueIs(g, Make(g.z, p, m), depth + 1);
    } else if forall e :: e in node.edges ==> !Played(node, e) {
      forall m ensures !Searched(p, m) {
        if Searched(p, m) {
          SearchedIsPlayed(g, p, depth, m);
        }
      }
    }
  }

  lemma {:induction false} TreeBounded(g: Setting, p: Pos, depth: nat)
    requires g.Ok()
    ensures Bounded(Tree(g, p, depth))
    decreases if depth < 127 then 127 - depth else 0
  {
    hide *;
    MatedScore(depth);
    TreeLeaf(g, p, depth);
    var node := Tree(g, p, depth);
    if WellFormed(p) && depth < 127 {
      TreeParts(g, p, depth);
      var list := InSomeOrder(TriedSet(p));
      forall e | e in node.edges ensures Bounded(e.child) {
        var i :| 0 <= i < |node.edges| && node.edges[i] == e;
        ChildIsTree(g, p, depth, list[i]);
        if p.history != [] && WellTyped(p.cells, p.stm, list[i]) {
          TreeBounded(g, Make(g.z, p, list[i]), depth + 1);
        } else {
          LeafBounded();
        }
      }
    }
    BoundedFrom(node);
  }

  lemma LeafBounded()
    ensures Bounded(Node(0, false, true, false, []))
  {
  }

  lemma TreeLeaf(g: Setting, p: Pos, depth: nat)
    requires g.Ok()
    ensures -MAX_NON_MATE <= Tree(g, p, depth).evaluation <= MAX_NON_MATE
    ensures !WellFormed(p) || depth >= 127 ==> Tree(g, p, depth).edges == []
  {
    hide WellFormed, Worth, InCheck, DrawnHere, Stuck, TriedSet, InSomeOrder;
  }

  lemma ChildIsTree(g: Setting, p: Pos, depth: nat, m: Move)
    requires g.Ok() && depth < 127
    ensures EdgeOf(g, p, depth, m).child ==
      if p.history != [] && WellTyped(p.cells, p.stm, m) then Tree(g, Make(g.z, p, m), depth + 1) else Node(0, false, true, false, [])
  {
    hide See.Exchange, Legal, WellTyped, Tree, Make;
  }

  lemma SearchedIsPlayed(g: Setting, p: Pos, depth: nat, m: Move)
    requires g.Ok() && Sound(p) && HashOk(g.z, p) && depth < 127 && Searched(p, m)
    ensures EdgeOf(g, p, depth, m) in Tree(g, p, depth).edges && Played(Tree(g, p, depth), EdgeOf(g, p, depth, m))
  {
    EdgeInTree(g, p, depth, m);
    ChildOf(g, p, depth, m);
    TreeParts(g, p, depth);
    hide Tree, EdgeOf, Tried, HashOk, Legal, InCheck, See.Exchange, Worth;
  }

  lemma PlayedEdge(g: Setting, p: Pos, depth: nat, e: Edge)
    requires g.Ok() && Sound(p) && HashOk(g.z, p) && depth < 127 && e in Tree(g, p, depth).edges && Played(Tree(g, p, depth), e)
    ensures exists m :: Searched(p, m) && WellTyped(p.cells, p.stm, m) && e.child == Tree(g, Make(g.z, p, m), depth + 1)
  {
    TreeParts(g, p, depth);
    var list := InSomeOrder(TriedSet(p));
    hide EdgeOf, Tried, HashOk, Legal, InCheck, See.Exchange, Worth, TriedSet, InSomeOrder, RightsHome, EpHome, PawnsInside, OneKing;
    var i :| 0 <= i < |list| && Edges(g, p, depth, list)[i] == e;
    var m := list[i];
    assert m in list;
    TriedSetHas(p, m);
    TriedIsTested(p, m);
    EdgeSee(g, p, depth, m);
    ChildOf(g, p, depth, m);
  }

  // ---- the search ----

  /** Position and evaluator are in step with each other and with the setting. */
  ghost predicate InStep(g: Setting, e: Eval, pos: Position)
    reads pos, pos.typeBb, pos.colorBb, e.white, e.black
  {
    && g.Ok() && pos.Valid() && e.Agrees(pos.cells) && e.net == g.net && pos.z == g.z
    && Sound(pos.View()) && HashOk(g.z, pos.View())
  }

  lemma InStepIs(g: Setting, e: Eval, pos: Position)
    ensures InStep(g, e, pos) <==>
      && g.Ok() && pos.Valid() && e.Agrees(pos.cells) && e.net == g.net && pos.z == g.z
      && Sound(pos.View()) && HashOk(g.z, pos.View())
    ensures pos.View().cells == pos.cells && pos.View().stm == pos.stm && pos.View().history == pos.history
    ensures pos.Valid() ==> pos.Encodes()
    ensures Sound(pos.View()) ==> WellFormed(pos.View()) && OneKing(pos.cells, pos.stm)
  {
    hide Accumulates, Int16, HashOk, Positions.Position.Encodes, Setting.Ok, RightsHome, EpHome, PawnsInside, InCheck;
  }

  /** `nnue_evaluate`: the accumulator of the side to move comes first. */
  method Evaluate(g: Setting, e: Eval, pos: Position) returns (v: int)
    requires InStep(g, e, pos)
    ensures v == Worth(g, pos.View())
    ensures v == if pos.stm == WHITE then g.out(e.white[..], e.black[..]) else g.out(e.black[..], e.white[..])
  {
    hide Accumulates, Int16, Sound, HashOk, Positions.Position.Encodes;
    AccumulatesUnique(g.net, WHITE, e.white[..], Lanes(g.net, WHITE, pos.cells), pos.cells);
    AccumulatesUnique(g.net, BLACK, e.black[..], Lanes(g.net, BLACK, pos.cells), pos.cells);
    v := if pos.stm == WHITE then g.out(e.white[..], e.black[..]) else g.out(e.black[..], e.white[..]);
  }

  /** The exchange value of every move. */
  method Scores(pos: Position, moves: seq<Move>) returns (scores: seq<int>)
    requires pos.Valid() && forall i :: 0 <= i < |moves| ==> moves[i].from in pos.cells
    ensures |scores| == |moves| && forall i :: 0 <= i < |moves| ==> scores[i] == See.Exchange(pos.cells, pos.stm, moves[i])
  {
    hide See.Exchange, Positions.Position.Encodes;
    scores := [];
    for i := 0 to |moves|
      invariant |scores| == i && forall j :: 0 <= j < i ==> scores[j] == See.Exchange(pos.cells, pos.stm, moves[j])
    {
      var score := ExchangeValue(pos, moves[i]);
      scores := scores + [score];
    }
  }

  lemma ChildIsSound(z: Randoms, p: Pos, m: Move)
    requires Sound(p) && HashOk(z, p) && Legal(p, m)
    ensures WellTyped(p.cells, p.stm, m) && p.history != []
    ensures Sound(Make(z, p, m)) && HashOk(z, Make(z, p, m))
    ensures CanUnmake(Make(z, p, m)) && Unmake(Make(z, p, m)) == p
  {
    LegalKeepsSound(z, p, m);
    UnmakeUndoesMake(z, p, m);
    hide Legal, HashOk, Make, Unmake, CanUnmake, InCheck;
  }

  /** Make a legal move, search, and take it back. */
  method TryMove(g: Setting, e: Eval, pos: Position, m: Move, alpha: int, beta: int, depth: nat) returns (score: int)
    requires InStep(g, e, pos) && Legal(pos.View(), m) && -32767 <= alpha < beta <= 32767 && depth < DEPTH_LIMIT
    modifies e.white, e.black
    modifies pos`cells, pos`stm, pos`fullmoves, pos`ply, pos`history, pos.typeBb, pos.colorBb
    ensures InStep(g, e, pos) && pos.View() == old(pos.View())
    ensures WellTyped(old(pos.cells), old(pos.stm), m)
    ensures Returns(Tree(g, Make(g.z, old(pos.View()), m), depth + 1), depth + 1, -beta, -alpha, -score)
    decreases DEPTH_LIMIT - depth, 0
  {
    hide *;
    InStepIs(g, e, pos);
    ghost var p := pos.View();
    ChildIsSound(g.z, p, m);
    var journal := PlayMove(g, e, pos, m);
    InStepIs(g, e, pos);
    var reply := QuiescenceSearch(g, e, pos, -beta, -alpha, depth + 1);
    InStepIs(g, e, pos);
    PlayBack(g, e, pos, journal, p);
    score := -reply;
  }

  /** `make_move` on position and evaluator. */
  method PlayMove(g: Setting, e: Eval, pos: Position, m: Move) returns (journal: seq<Undo>)
    requires InStep(g, e, pos) && Legal(pos.View(), m) && WellTyped(pos.cells, pos.stm, m)
    modifies e.white, e.black
    modifies pos`cells, pos`stm, pos`fullmoves, pos`ply, pos`history, pos.typeBb, pos.colorBb
    ensures InStep(g, e, pos) && pos.View() == Make(g.z, old(pos.View()), m)
    ensures Leads(old(pos.cells), journal, pos.cells) && |journal| <= 4
  {
    hide *;
    InStepIs(g, e, pos);
    ChildIsSound(g.z, pos.View(), m);
    LegalIsTaken(g.z, pos.View(), m);
    journal := MakeMove(e, pos, m);
    InStepIs(g, e, pos);
  }

  /** `unmake_move` back to the sound position `p`. */
  method PlayBack(g: Setting, e: Eval, pos: Position, journal: seq<Undo>, ghost p: Pos)
    requires InStep(g, e, pos) && CanUnmake(pos.View()) && Unmake(pos.View()) == p && Sound(p) && HashOk(g.z, p)
    requires Leads(p.cells, journal, pos.cells) && |journal| <= 4
    modifies e.white, e.black
    modifies pos`cells, pos`stm, pos`fullmoves, pos`ply, pos`history, pos.typeBb, pos.colorBb
    ensures InStep(g, e, pos) && pos.View() == p
  {
    hide *;
    InStepIs(g, e, pos);
    UnmakeMove(e, pos, journal);
    InStepIs(g, e, pos);
  }

  ghost predicate NoLegalMove(p: Pos) {
    forall m :: !Legal(p, m)
  }

  lemma MatedScore(depth: nat)
    ensures Mated(depth) == -30000 + depth && DEPTH_LIMIT == 127
  {
  }

  /** `qs` on the desktop path: for every window it answers for the minimax value of the tree, and
      position and evaluator are as before. */
  method QuiescenceSearch(g: Setting, e: Eval, pos: Position, alpha0: int, beta: int, depth: nat) returns (best: int)
    requires InStep(g, e, pos) && -32767 <= alpha0 < beta <= 32767 && depth <= DEPTH_LIMIT
    modifies e.white, e.black
    modifies pos`cells, pos`stm, pos`fullmoves, pos`ply, pos`history, pos.typeBb, pos.colorBb
    ensures InStep(g, e, pos) && pos.View() == old(pos.View())
    ensures Returns(Tree(g, old(pos.View()), depth), depth, alpha0, beta, best)
    ensures depth == 127 ==>
      best == if old(pos.stm) == WHITE then g.out(old(e.white[..]), old(e.black[..])) else g.out(old(e.black[..]), old(e.white[..]))
    ensures depth < 127 && DrawnHere(old(pos.View())) ==>
      best == if InCheck(old(pos.cells), old(pos.stm)) && Stuck(old(pos.View())) then -30000 + depth else 0
    ensures depth < 127 && !DrawnHere(old(pos.View())) && InCheck(old(pos.cells), old(pos.stm)) && NoLegalMove(old(pos.View())) ==>
      best == -30000 + depth
    ensures depth < 127 && !DrawnHere(old(pos.View())) && !InCheck(old(pos.cells), old(pos.stm)) ==> best >= Worth(g, old(pos.View()))
    decreases DEPTH_LIMIT - depth, 2
  {
    hide *;
    InStepIs(g, e, pos);
    ghost var p := pos.View();
    ghost var node := Tree(g, p, depth);
    TreeParts(g, p, depth);
    MatedScore(depth);
    var evaluation := Evaluate(g, e, pos);
    if depth >= DEPTH_LIMIT {
      LeafReturns(node, depth, alpha0, beta);
      return evaluation;
    }
    var inCheck := IsInCheck(pos);
    var drawn := IsDrawnHere(pos);
    if drawn {
      LeafReturns(node, depth, alpha0, beta);
      if inCheck {
        var ml := new Generators.MoveList();
        Generators.LegalMoveList(pos, ml);
        if ml.items == [] {
          return Mated(depth);
        }
      }
      return 0;
    }
    if !inCheck && evaluation > alpha0 && evaluation >= beta {
      StandPatReturns(node, depth, alpha0, beta);
      return evaluation;
    }
    best := SearchMoves(g, e, pos, inCheck, evaluation, alpha0, beta, depth);
  }

  method IsInCheck(pos: Position) returns (r: bool)
    requires pos.Valid() && WellFormed(pos.View())
    ensures r <==> InCheck(pos.cells, pos.stm)
  {
    hide Positions.Position.Encodes, FullHash, RightsHome, EpHome, PawnsInside;
    var k := pos.KingOf(pos.stm);
    var checkers := Generators.CheckersOf(pos, pos.stm, k);
    r := checkers != {};
  }

  /** The moves of a position with their scores, and the edges they stand for. */
  ghost predicate Matched(g: Setting, p: Pos, depth: nat, moves: seq<Move>, scores: seq<int>, edges: seq<Edge>)
    requires g.Ok() && depth < DEPTH_LIMIT
  {
    && |scores| == |moves| == |edges| && SameMoves(edges, Tree(g, p, depth).edges)
    && WellFormed(p) && forall i :: 0 <= i < |moves| ==> Tried(p, moves[i]) && edges[i] == EdgeOf(g, p, depth, moves[i]) && scores[i] == edges[i].see
  }

  /** The loop over the moves. */
  method SearchMoves(g: Setting, e: Eval, pos: Position, inCheck: bool, evaluation: int, alpha0: int, beta: int, depth: nat) returns (best: int)
    requires InStep(g, e, pos) && -32767 <= alpha0 < beta <= 32767 && depth < DEPTH_LIMIT
    requires inCheck == InCheck(pos.cells, pos.stm) && evaluation == Worth(g, pos.View()) && !DrawnHere(pos.View())
    requires !inCheck ==> evaluation < beta
    modifies e.white, e.black
    modifies pos`cells, pos`stm, pos`fullmoves, pos`ply, pos`history, pos.typeBb, pos.colorBb
    ensures InStep(g, e, pos) && pos.View() == old(pos.View())
    ensures Returns(Tree(g, old(pos.View()), depth), depth, alpha0, beta, best)
    ensures InCheck(old(pos.cells), old(pos.stm)) && NoLegalMove(old(pos.View())) ==> best == Mated(depth)
    ensures !inCheck ==> best >= evaluation
    decreases DEPTH_LIMIT - depth, 1
  {
    hide *;
    InStepIs(g, e, pos);
    ghost var p := pos.View();
    ghost var node := Tree(g, p, depth);
    var moves, scores := ListMoves(g, e, pos, depth);
    ghost var edges := Edges(g, p, depth, moves);
    var pinned := pos.PinnedPiecesOf(pos.stm);
    var at := if inCheck then Progress(alpha0, NO_SCORE, 0) else Progress(Max(alpha0, evaluation), evaluation, 0);
    var m := 0;
    ghost var value := Base(node);
    MatchedStart(g, p, depth, moves, scores, edges, inCheck, evaluation, alpha0, beta, at);
    while m < |moves|
      invariant m <= |moves| && |scores| == |moves| == |edges|
      invariant InStep(g, e, pos) && pos.View() == p
      invariant Matched(g, p, depth, moves, scores, edges)
      invariant Along(node, depth, alpha0, beta, edges, m, at, value)
      invariant NoLegalMove(p) ==> at.played == 0
      invariant !inCheck ==> at.best >= evaluation
      decreases |moves| - m
    {
      InStepIs(g, e, pos);
      var selected := SelectIndex(scores, m);
      MatchedSwap(g, p, depth, moves, scores, edges, selected, m);
      AlongSwap(node, depth, alpha0, beta, edges, selected, m, at, value);
      moves, scores, edges := Swapped(moves, selected, m), Swapped(scores, selected, m), Swapped(edges, selected, m);
      MatchedMeaning(g, p, depth, moves, scores, edges, m);
      PlayedMeaning(node, edges[m]);
      AlongWindow(node, depth, alpha0, beta, edges, m, at, value);
      var legal := false;
      if !(scores[m] < 0 && !inCheck) {
        legal := pos.IsLegalGenerated(moves[m], pinned);
      }
      if legal {
        SomeLegalMove(p, moves[m]);
        var score := TryMove(g, e, pos, moves[m], at.alpha, beta, depth);
        AlongSearches(node, depth, alpha0, beta, edges, m, at, value, score);
        if score > at.best && score >= beta {
          return score;
        }
        value := Max(value, -Minimax(edges[m].child, depth + 1));
        Advanced(at, score);
        at := Advance(at, score);
        if at.played >= 3 && at.best >= MAX_NON_MATE {
          AlongExits(node, depth, alpha0, beta, edges, m + 1, at, value);
          return at.best;
        }
      } else {
        AlongSkips(node, depth, alpha0, beta, edges, m, at, value);
      }
      m := m + 1;
    }
    AlongEnds(node, depth, alpha0, beta, edges, at, value);
    best := if at.played > 0 then at.best else if inCheck then Mated(depth) else evaluation;
  }

  /** The moves in the order they are generated, and their exchange values. */
  method ListMoves(g: Setting, e: Eval, pos: Position, depth: nat) returns (moves: seq<Move>, scores: seq<int>)
    requires InStep(g, e, pos) && depth < DEPTH_LIMIT
    ensures Matched(g, pos.View(), depth, moves, scores, Edges(g, pos.View(), depth, moves))
  {
    hide *;
    InStepIs(g, e, pos);
    var ml := new Generators.MoveList();
    QuiescenceMoves(pos, ml);
    moves := ml.items;
    AllTried(pos.View(), moves);
    scores := Scores(pos, moves);
    MatchedFirst(g, pos.View(), depth, moves, scores);
  }

  lemma AllTried(p: Pos, moves: seq<Move>)
    requires WellFormed(p) && forall m :: m in moves <==> Tried(p, m)
    ensures forall i :: 0 <= i < |moves| ==> moves[i].from in p.cells
  {
    hide Tried, WellFormed;
    forall i | 0 <= i < |moves| ensures moves[i].from in p.cells {
      assert moves[i] in moves;
      TriedIsTested(p, moves[i]);
    }
  }

  lemma MatchedFirst(g: Setting, p: Pos, depth: nat, moves: seq<Move>, scores: seq<int>)
    requires g.Ok() && depth < DEPTH_LIMIT && WellFormed(p) && |scores| == |moves| && forall m :: m in moves <==> Tried(p, m)
    requires forall i :: 0 <= i < |moves| ==> moves[i].from in p.cells && scores[i] == See.Exchange(p.cells, p.stm, moves[i])
    ensures Matched(g, p, depth, moves, scores, Edges(g, p, depth, moves))
  {
    hide Tried, WellFormed, EdgeOf, Tree, See.Exchange, Setting.Ok, Edges;
    EdgesOfTree(g, p, depth, moves);
    forall i | 0 <= i < |moves| ensures Tried(p, moves[i]) && EdgeOf(g, p, depth, moves[i]).see == scores[i] {
      assert moves[i] in moves;
      EdgeSee(g, p, depth, moves[i]);
    }
  }

  lemma EdgeSee(g: Setting, p: Pos, depth: nat, m: Move)
    requires g.Ok() && depth < DEPTH_LIMIT && m.from in p.cells
    ensures EdgeOf(g, p, depth, m).see == See.Exchange(p.cells, p.stm, m)
    ensures EdgeOf(g, p, depth, m).legal == Legal(p, m)
    ensures p.history != [] && WellTyped(p.cells, p.stm, m) ==> EdgeOf(g, p, depth, m).child == Tree(g, Make(g.z, p, m), depth + 1)
  {
    hide See.Exchange, Legal, WellTyped, Tree, Make;
  }

  lemma MatchedSwap(g: Setting, p: Pos, depth: nat, moves: seq<Move>, scores: seq<int>, edges: seq<Edge>, i: nat, j: nat)
    requires g.Ok() && depth < DEPTH_LIMIT && Matched(g, p, depth, moves, scores, edges) && i < |moves| && j < |moves|
    ensures Matched(g, p, depth, Swapped(moves, i, j), Swapped(scores, i, j), Swapped(edges, i, j))
  {
    hide Tree, EdgeOf, Tried, WellFormed, Setting.Ok;
    SameMembers(edges, Swapped(edges, i, j));
  }

  lemma AlongSwap(node: Node, depth: nat, alpha0: int, beta: int, edges: seq<Edge>, i: nat, m: nat, at: Progress, value: int)
    requires m <= i < |edges| && Along(node, depth, alpha0, beta, edges, m, at, value)
    ensures Along(node, depth, alpha0, beta, Swapped(edges, i, m), m, at, value)
  {
    hide Along;
    SameMembers(edges, Swapped(edges, i, m));
    AlongReordered(node, depth, alpha0, beta, edges, Swapped(edges, i, m), m, at, value);
  }

  lemma SomeLegalMove(p: Pos, m: Move)
    requires Legal(p, m)
    ensures !NoLegalMove(p)
  {
    hide Legal;
  }

  lemma Advanced(at: Progress, score: int)
    ensures Advance(at, score).played == at.played + 1
    ensures Advance(at, score).best >= at.best && Advance(at, score).best >= score
  {
  }

  lemma MatchedStart(g: Setting, p: Pos, depth: nat, moves: seq<Move>, scores: seq<int>, edges: seq<Edge>,
                     inCheck: bool, evaluation: int, alpha0: int, beta: int, at: Progress)
    requires g.Ok() && depth < DEPTH_LIMIT && Matched(g, p, depth, moves, scores, edges) && WellFormed(p)
    requires inCheck == InCheck(p.cells, p.stm) && evaluation == Worth(g, p) && !DrawnHere(p)
    requires -32767 <= alpha0 < beta <= 32767 && (!inCheck ==> evaluation < beta)
    requires at == if inCheck then Progress(alpha0, NO_SCORE, 0) else Progress(Max(alpha0, evaluation), evaluation, 0)
    ensures |scores| == |moves| == |edges|
    ensures
      var node := Tree(g, p, depth);
      && node.evaluation == evaluation && node.inCheck == inCheck && -MAX_NON_MATE <= evaluation <= MAX_NON_MATE
      && Along(node, depth, alpha0, beta, edges, 0, at, Base(node))
  {
    TreeParts(g, p, depth);
    AlongStart(Tree(g, p, depth), depth, alpha0, beta, edges);
    hide Along, Tree, Worth, DrawnHere, InCheck, WellFormed, EdgeOf, Tried, SameMoves, Setting.Ok;
  }

  /** What the test and the score of the move at hand are worth. */
  lemma MatchedMeaning(g: Setting, p: Pos, depth: nat, moves: seq<Move>, scores: seq<int>, edges: seq<Edge>, m: nat)
    requires g.Ok() && depth < DEPTH_LIMIT && Matched(g, p, depth, moves, scores, edges) && m < |moves|
    ensures |scores| == |moves| == |edges| && WellFormed(p) && edges[m].see == scores[m] && edges[m].legal == Legal(p, moves[m])
    ensures moves[m].kind == EnPassant ==> p.Top().ep == Some(moves[m].to) && 0 <= Behind(moves[m].to, p.stm) < 64
    ensures Legal(p, moves[m]) <==>
      PassesTest(p.cells, p.stm, KingSquare(p.cells, p.stm), moves[m], PinnedPieces(p.cells, p.stm, KingSquare(p.cells, p.stm)))
    ensures WellTyped(p.cells, p.stm, moves[m]) ==> edges[m].child == Tree(g, Make(g.z, p, moves[m]), depth + 1)
  {
    TriedIsTested(p, moves[m]);
    EdgeSee(g, p, depth, moves[m]);
    hide Tree, EdgeOf, Tried, Setting.Ok, Legal, PassesTest, PinnedPieces, RightsHome, EpHome, PawnsInside, WellTyped, Make;
  }

  /** Called from outside the recursion: the answer, and both accumulators element for element as
      before. */
  method Quiesce(g: Setting, e: Eval, pos: Position, alpha: int, beta: int, depth: nat) returns (best: int)
    requires InStep(g, e, pos) && -32767 <= alpha < beta <= 32767 && depth <= DEPTH_LIMIT
    modifies e.white, e.black
    modifies pos`cells, pos`stm, pos`fullmoves, pos`ply, pos`history, pos.typeBb, pos.colorBb
    ensures InStep(g, e, pos) && pos.View() == old(pos.View())
    ensures e.white[..] == old(e.white[..]) && e.black[..] == old(e.black[..])
    ensures Returns(Tree(g, old(pos.View()), depth), depth, alpha, beta, best)
  {
    hide InStep, Tree, Returns, Accumulates, Int16, Positions.Position.Encodes;
    InStepIs(g, e, pos);
    ghost var w, b, cells := e.white[..], e.black[..], pos.cells;
    best := QuiescenceSearch(g, e, pos, alpha, beta, depth);
    InStepIs(g, e, pos);
    AccumulatesUnique(g.net, WHITE, w, e.white[..], cells);
    AccumulatesUnique(g.net, BLACK, b, e.black[..], cells);
  }
}
