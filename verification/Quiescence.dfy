/** Quiescence search over an abstract game tree: the windowed loop against plain stand-pat
    minimax over the same moves. */
module Quiescence {
  import opened Types

  const MAX_EVAL: int := 30000
  const NO_SCORE: int := -32767
  const DEPTH_LIMIT: int := 127

  /** What `qs` reads of a position: its evaluation, whether the side to move is in check, whether
      a draw rule applies, whether the legal move list comes back empty (module Draws says when
      that is a mate), and its candidate moves. */
  datatype Node = Node(evaluation: int, inCheck: bool, drawn: bool, stuck: bool, edges: seq<Edge>)

  /** A candidate move: its exchange value, whether it passes the legality test, where it leads. */
  datatype Edge = Edge(see: int, legal: bool, child: Node)

  /** Evaluations are clamped to the non-mate range. */
  predicate Bounded(node: Node) {
    -MAX_NON_MATE <= node.evaluation <= MAX_NON_MATE && forall e :: e in node.edges ==> Bounded(e.child)
  }

  /** Losing captures are skipped, but never when evading check. */
  predicate Played(node: Node, e: Edge) {
    e.legal && (node.inCheck || e.see >= 0)
  }

  predicate NothingPlayed(node: Node, edges: seq<Edge>) {
    forall e :: e in edges ==> !Played(node, e)
  }

  function Mated(depth: int): int {
    -MAX_EVAL + depth
  }

  /** Standing pat, where allowed. */
  function Base(node: Node): int {
    if node.inCheck then NO_SCORE else node.evaluation
  }

  /** The reference: stand pat or the best played move, searched without a window. */
  function Minimax(node: Node, depth: nat): int
    decreases node, |node.edges| + 1
  {
    if depth >= DEPTH_LIMIT then node.evaluation
    else if node.drawn then if node.inCheck && node.stuck then Mated(depth) else 0
    else if NothingPlayed(node, node.edges) then if node.inCheck then Mated(depth) else node.evaluation
    else BestOf(node, depth, node.edges)
  }

  function BestOf(node: Node, depth: nat, edges: seq<Edge>): int
    requires forall e :: e in edges ==> e in node.edges
    decreases node, |edges|
  {
    if edges == [] then Base(node)
    else
      var last := edges[|edges| - 1];
      assert last in node.edges;
      var before := BestOf(node, depth, edges[..|edges| - 1]);
      if Played(node, last) then Max(before, -Minimax(last.child, depth + 1)) else before
  }

  lemma {:induction false} BestOfMeaning(node: Node, depth: nat, edges: seq<Edge>)
    requires forall e :: e in edges ==> e in node.edges
    ensures BestOf(node, depth, edges) >= Base(node)
    ensures forall e :: e in edges && Played(node, e) ==> BestOf(node, depth, edges) >= -Minimax(e.child, depth + 1)
    ensures BestOf(node, depth, edges) == Base(node) ||
            exists e :: e in edges && Played(node, e) && BestOf(node, depth, edges) == -Minimax(e.child, depth + 1)
  {
    if edges != [] {
      BestOfMeaning(node, depth, edges[..|edges| - 1]);
    }
  }

  /** More moves can only help. */
  lemma BestOfMono(node: Node, depth: nat, some: seq<Edge>, all: seq<Edge>)
    requires (forall e :: e in some ==> e in all) && (forall e :: e in all ==> e in node.edges)
    ensures BestOf(node, depth, some) <= BestOf(node, depth, all)
  {
    BestOfMeaning(node, depth, some);
    BestOfMeaning(node, depth, all);
  }

  /** No value lies beyond a mate on the spot. */
  lemma {:induction false} MinimaxBounds(node: Node, depth: nat)
    requires Bounded(node) && depth <= DEPTH_LIMIT
    ensures -30000 <= Minimax(node, depth) <= 30000
    decreases node
  {
    if depth < DEPTH_LIMIT && !node.drawn && !NothingPlayed(node, node.edges) {
      BestOfMeaning(node, depth, node.edges);
      forall e | e in node.edges ensures -30000 <= Minimax(e.child, depth + 1) <= 30000 {
        MinimaxBounds(e.child, depth + 1);
      }
    }
  }

  lemma BoundedFrom(node: Node)
    requires -MAX_NON_MATE <= node.evaluation <= MAX_NON_MATE && forall e :: e in node.edges ==> Bounded(e.child)
    ensures Bounded(node)
  {
  }

  /** The value is that of standing pat or of a move played, at least that of each; with neither in
      check it is a mate. */
  lemma ValueCases(node: Node, depth: nat)
    requires Bounded(node) && depth < DEPTH_LIMIT && !node.drawn
    ensures !node.inCheck ==> Minimax(node, depth) >= node.evaluation
    ensures forall e :: e in node.edges && Played(node, e) ==> Minimax(node, depth) >= -Minimax(e.child, depth + 1)
    ensures (!node.inCheck && Minimax(node, depth) == node.evaluation) ||
            (node.inCheck && (forall e :: e in node.edges ==> !Played(node, e)) && Minimax(node, depth) == -30000 + depth) ||
            exists e :: e in node.edges && Played(node, e) && Minimax(node, depth) == -Minimax(e.child, depth + 1)
  {
    BestOfMeaning(node, depth, node.edges);
    if !NothingPlayed(node, node.edges) {
      var e :| e in node.edges && Played(node, e);
      MinimaxBounds(e.child, depth + 1);
    }
  }

  // ---- the mate window ----

  /** Mate scores and the rest of the tail are worth the same once clamped. */
  function MateClamp(x: int): int {
    if x > MAX_NON_MATE then MAX_NON_MATE else if x < -MAX_NON_MATE then -MAX_NON_MATE else x
  }

  lemma MateClampLaws(x: int, y: int)
    ensures MateClamp(-x) == -MateClamp(x)
    ensures x <= y ==> MateClamp(x) <= MateClamp(y)
  {
  }

  /** `r` is a fail-soft answer for the value `v` in the window (alpha, beta). */
  predicate AnswersWindow(v: int, alpha: int, beta: int, r: int) {
    && (r <= alpha ==> MateClamp(v) <= MateClamp(r))
    && (r >= beta ==> MateClamp(v) >= MateClamp(r))
    && (alpha < r < beta ==> MateClamp(v) == MateClamp(r))
  }

  /** No score claims a mate nearer than the current ply. */
  predicate MateDistance(r: int, depth: nat) {
    -MAX_EVAL + depth <= r <= MAX_EVAL - depth - 1
  }

  /** Where the loop stands: `best` against the value `p` of what has been searched. */
  predicate Standing(p: int, alpha0: int, alpha: int, best: int) {
    alpha == Max(alpha0, best) && (if best <= alpha0 then MateClamp(p) <= MateClamp(best) else MateClamp(p) == MateClamp(best))
  }

  /** One searched move keeps the standing, or fails high. */
  lemma SearchedMove(p: int, v: int, alpha0: int, alpha: int, beta: int, best: int, score: int)
    requires Standing(p, alpha0, alpha, best) && alpha < beta && AnswersWindow(-v, -beta, -alpha, -score)
    ensures score > best && score >= beta ==> MateClamp(Max(p, v)) >= MateClamp(score)
    ensures score > best && score < beta ==> Standing(Max(p, v), alpha0, Max(alpha, score), score)
    ensures score <= best ==> Standing(Max(p, v), alpha0, alpha, best)
  {
    MateClampLaws(v, score);
    MateClampLaws(-v, -score);
    MateClampLaws(score, -score);
    MateClampLaws(best, score);
    MateClampLaws(score, best);
    MateClampLaws(p, v);
    MateClampLaws(v, p);
  }

  predicate Sees(scores: seq<int>, moves: seq<Edge>) {
    |scores| == |moves| && forall i :: 0 <= i < |moves| ==> scores[i] == moves[i].see
  }

  /** The two elements exchanged. */
  function Swapped<T>(s: seq<T>, i: nat, j: nat): (r: seq<T>)
    requires i < |s| && j < |s|
    ensures |r| == |s| && multiset(r) == multiset(s)
    ensures forall k :: 0 <= k < |s| ==> r[k] == if k == i then s[j] else if k == j then s[i] else s[k]
  {
    s[i := s[j]][j := s[i]]
  }

  /** The first index of the highest score of the unsearched tail. */
  method SelectIndex(scores: seq<int>, m: nat) returns (selected: nat)
    requires m < |scores|
    ensures m <= selected < |scores| && forall i :: m <= i < |scores| ==> scores[i] <= scores[selected]
    ensures forall i :: m <= i < selected ==> scores[i] < scores[selected]
  {
    selected := m;
    for i := m to |scores|
      invariant m <= selected < |scores| && selected <= Max(m, i - 1)
      invariant forall j :: m <= j < i ==> scores[j] <= scores[selected]
      invariant forall j :: m <= j < selected ==> scores[j] < scores[selected]
    {
      if scores[i] > scores[selected] {
        selected := i;
      }
    }
  }

  /** Selection step: bring the highest score of the unsearched tail to index `m`. */
  method SelectNext(scores: seq<int>, moves: seq<Edge>, m: nat) returns (scores': seq<int>, moves': seq<Edge>)
    requires Sees(scores, moves) && m < |moves|
    ensures Sees(scores', moves') && |moves'| == |moves| && multiset(moves') == multiset(moves)
    ensures moves'[..m] == moves[..m] && forall i :: m <= i < |moves'| ==> scores'[i] <= scores'[m]
  {
    var selected := SelectIndex(scores, m);
    scores', moves' := Swapped(scores, selected, m), Swapped(moves, selected, m);
  }

  /** The same moves, whatever their order and however often they occur. */
  ghost predicate SameMoves(a: seq<Edge>, b: seq<Edge>) {
    forall e :: e in a <==> e in b
  }

  lemma SameMembers(a: seq<Edge>, b: seq<Edge>)
    requires multiset(a) == multiset(b)
    ensures SameMoves(a, b)
  {
    forall e ensures e in a <==> e in b {
      assert e in a <==> e in multiset(a);
      assert e in b <==> e in multiset(b);
    }
  }

  /** The value of a position whose moves have all been tried, or some of them. */
  lemma PrefixValue(node: Node, depth: nat, moves: seq<Edge>, m: nat)
    requires SameMoves(moves, node.edges) && m <= |moves| && depth < DEPTH_LIMIT && !node.drawn
    ensures forall e :: e in moves[..m] ==> e in node.edges
    ensures !NothingPlayed(node, moves[..m]) ==> BestOf(node, depth, moves[..m]) <= Minimax(node, depth)
    ensures m == |moves| ==>
      Minimax(node, depth) ==
      if NothingPlayed(node, moves[..m]) then if node.inCheck then Mated(depth) else node.evaluation
      else BestOf(node, depth, moves[..m])
  {
    assert moves[..|moves|] == moves;
    BestOfMono(node, depth, moves[..m], node.edges);
    if m == |moves| {
      BestOfMono(node, depth, node.edges, moves[..m]);
    }
  }

  // ---- one pass over the moves ----

  /** What the loop has at hand: window, best score, moves searched. */
  datatype Progress = Progress(alpha: int, best: int, played: nat)

  /** The loop has tried the first `m` moves, worth `value` with standing pat, and goes on. */
  ghost predicate Along(node: Node, depth: nat, alpha0: int, beta: int, moves: seq<Edge>, m: nat, at: Progress, value: int) {
    && depth < DEPTH_LIMIT && !node.drawn && alpha0 < beta
    && m <= |moves| && SameMoves(moves, node.edges) && (forall e :: e in moves[..m] ==> e in node.edges)
    && value == BestOf(node, depth, moves[..m])
    && Standing(value, alpha0, at.alpha, at.best) && at.best < beta
    && (at.played == 0 <==> NothingPlayed(node, moves[..m]))
    && (if at.played == 0 then at.best == Base(node) else MateDistance(at.best, depth))
  }

  /** `r` answers for the node and lies within the mate distance of the ply. */
  ghost predicate Returns(node: Node, depth: nat, alpha0: int, beta: int, r: int) {
    AnswersWindow(Minimax(node, depth), alpha0, beta, r) && MateDistance(r, depth)
  }

  /** After one more score. */
  function Advance(at: Progress, score: int): Progress {
    Progress(if score > at.best then Max(at.alpha, score) else at.alpha, Max(at.best, score), at.played + 1)
  }

  lemma AlongStart(node: Node, depth: nat, alpha0: int, beta: int, moves: seq<Edge>)
    requires depth < DEPTH_LIMIT && !node.drawn && -32767 <= alpha0 < beta && SameMoves(moves, node.edges)
    requires -MAX_NON_MATE <= node.evaluation && Base(node) < beta
    ensures Along(node, depth, alpha0, beta, moves, 0, Progress(Max(alpha0, Base(node)), Base(node), 0), Base(node))
  {
    assert moves[..0] == [];
  }

  lemma AlongReordered(node: Node, depth: nat, alpha0: int, beta: int, moves: seq<Edge>, moves': seq<Edge>, m: nat, at: Progress, value: int)
    requires Along(node, depth, alpha0, beta, moves, m, at, value) && |moves'| == |moves|
    requires moves'[..m] == moves[..m] && SameMoves(moves, moves')
    ensures Along(node, depth, alpha0, beta, moves', m, at, value)
  {
    hide BestOf, Minimax, Standing, NothingPlayed, Base;
  }

  /** A move not played changes nothing. */
  lemma AlongSkips(node: Node, depth: nat, alpha0: int, beta: int, moves: seq<Edge>, m: nat, at: Progress, value: int)
    requires Along(node, depth, alpha0, beta, moves, m, at, value) && m < |moves| && !Played(node, moves[m])
    ensures Along(node, depth, alpha0, beta, moves, m + 1, at, value)
  {
    StepValue(node, depth, moves, m);
    hide BestOf, Minimax, Standing, NothingPlayed, Played, Base;
  }

  /** A searched move fails high, or the loop goes on. */
  lemma AlongSearches(node: Node, depth: nat, alpha0: int, beta: int, moves: seq<Edge>, m: nat, at: Progress, value: int, score: int)
    requires Along(node, depth, alpha0, beta, moves, m, at, value) && m < |moves| && Played(node, moves[m])
    requires Returns(moves[m].child, depth + 1, -beta, -at.alpha, -score) && -MAX_NON_MATE <= node.evaluation <= MAX_NON_MATE
    ensures
      if score > at.best && score >= beta then Returns(node, depth, alpha0, beta, score)
      else Along(node, depth, alpha0, beta, moves, m + 1, Advance(at, score), Max(value, -Minimax(moves[m].child, depth + 1)))
  {
    StepValue(node, depth, moves, m);
    SearchedMove(value, -Minimax(moves[m].child, depth + 1), alpha0, at.alpha, beta, at.best, score);
    if score > at.best && score >= beta {
      FailHigh(node, depth, moves, m + 1, Max(value, -Minimax(moves[m].child, depth + 1)), alpha0, beta, score);
    }
    hide BestOf, Minimax, NothingPlayed, Played, MateClamp;
  }

  lemma AlongExits(node: Node, depth: nat, alpha0: int, beta: int, moves: seq<Edge>, m: nat, at: Progress, value: int)
    requires Along(node, depth, alpha0, beta, moves, m, at, value) && at.played > 0 && at.best >= MAX_NON_MATE
    ensures Returns(node, depth, alpha0, beta, at.best)
  {
    MateExit(node, depth, moves, m, value, alpha0, at.alpha, beta, at.best);
    hide BestOf, Minimax, NothingPlayed, Base, MateClamp;
  }

  lemma AlongEnds(node: Node, depth: nat, alpha0: int, beta: int, moves: seq<Edge>, at: Progress, value: int)
    requires Along(node, depth, alpha0, beta, moves, |moves|, at, value) && -MAX_NON_MATE <= node.evaluation <= MAX_NON_MATE
    ensures Returns(node, depth, alpha0, beta, if at.played > 0 then at.best else if node.inCheck then Mated(depth) else node.evaluation)
  {
    PrefixValue(node, depth, moves, |moves|);
    hide BestOf, Minimax, NothingPlayed;
  }

  /** The answer at a leaf: the depth limit, or a drawn position. */
  lemma LeafReturns(node: Node, depth: nat, alpha0: int, beta: int)
    requires depth <= DEPTH_LIMIT && -MAX_NON_MATE <= node.evaluation <= MAX_NON_MATE
    ensures depth == DEPTH_LIMIT ==> Returns(node, depth, alpha0, beta, node.evaluation)
    ensures depth < DEPTH_LIMIT && node.drawn ==> Returns(node, depth, alpha0, beta, if node.inCheck && node.stuck then Mated(depth) else 0)
  {
    LeafValue(node, depth);
    hide Minimax, BestOf, NothingPlayed;
  }

  lemma StandPatReturns(node: Node, depth: nat, alpha0: int, beta: int)
    requires depth < DEPTH_LIMIT && !node.drawn && !node.inCheck && -MAX_NON_MATE <= node.evaluation <= MAX_NON_MATE
    requires alpha0 < beta <= node.evaluation
    ensures Returns(node, depth, alpha0, beta, node.evaluation)
  {
    StandPat(node, depth);
    MateClampLaws(node.evaluation, Minimax(node, depth));
    hide Minimax;
  }

  /** `qs` on the desktop path, over any tree: for every window it answers for the minimax value up
      to the mate clamp, and its score never claims a mate nearer than the current ply. */
  method Search(node: Node, alpha0: int, beta: int, depth: nat) returns (best: int)
    requires -32767 <= alpha0 < beta <= 32767 && depth <= DEPTH_LIMIT && Bounded(node)
    ensures Returns(node, depth, alpha0, beta, best)
    decreases node
  {
    hide Along, Returns, Minimax, Played;
    if depth >= DEPTH_LIMIT {
      LeafReturns(node, depth, alpha0, beta);
      return node.evaluation;
    }
    if node.drawn {
      LeafReturns(node, depth, alpha0, beta);
      if node.inCheck && node.stuck {
        return -MAX_EVAL + depth;
      }
      return 0;
    }
    var at := Progress(alpha0, NO_SCORE, 0);
    if !node.inCheck {
      if node.evaluation > alpha0 && node.evaluation >= beta {
        StandPatReturns(node, depth, alpha0, beta);
        return node.evaluation;
      }
      at := Progress(Max(alpha0, node.evaluation), node.evaluation, 0);
    }
    var moves, scores := node.edges, seq(|node.edges|, i requires 0 <= i < |node.edges| => node.edges[i].see);
    var m := 0;
    ghost var value := Base(node);
    AlongStart(node, depth, alpha0, beta, moves);
    while m < |moves|
      invariant m <= |moves| && Sees(scores, moves) && multiset(moves) == multiset(node.edges)
      invariant Along(node, depth, alpha0, beta, moves, m, at, value)
      decreases |moves| - m
    {
      ghost var before := moves;
      scores, moves := SelectNext(scores, moves, m);
      SameMembers(moves, before);
      SameMembers(moves, node.edges);
      AlongReordered(node, depth, alpha0, beta, before, moves, m, at, value);
      var move := moves[m];
      assert move in node.edges;
      if !(scores[m] < 0 && !node.inCheck) && move.legal {
        AlongWindow(node, depth, alpha0, beta, moves, m, at, value);
        PlayedMeaning(node, move);
        var reply := Search(move.child, -beta, -at.alpha, depth + 1);
        AlongSearches(node, depth, alpha0, beta, moves, m, at, value, -reply);
        if -reply > at.best && -reply >= beta {
          return -reply;
        }
        value := Max(value, -Minimax(move.child, depth + 1));
        at := Advance(at, -reply);
        if at.played >= 3 && at.best >= MAX_NON_MATE {
          AlongExits(node, depth, alpha0, beta, moves, m + 1, at, value);
          return at.best;
        }
      } else {
        PlayedMeaning(node, move);
        AlongSkips(node, depth, alpha0, beta, moves, m, at, value);
      }
      m := m + 1;
    }
    AlongEnds(node, depth, alpha0, beta, moves, at, value);
    best := if at.played > 0 then at.best else if node.inCheck then -MAX_EVAL + depth else node.evaluation;
  }

  lemma PlayedMeaning(node: Node, e: Edge)
    ensures Played(node, e) <==> e.legal && (node.inCheck || e.see >= 0)
  {
  }

  lemma AlongWindow(node: Node, depth: nat, alpha0: int, beta: int, moves: seq<Edge>, m: nat, at: Progress, value: int)
    requires Along(node, depth, alpha0, beta, moves, m, at, value)
    ensures alpha0 <= at.alpha < beta && depth < DEPTH_LIMIT
  {
    hide BestOf, Minimax, NothingPlayed, Base;
  }

  lemma FailHigh(node: Node, depth: nat, moves: seq<Edge>, m: nat, value: int, alpha0: int, beta: int, best: int)
    requires SameMoves(moves, node.edges) && m <= |moves| && depth < DEPTH_LIMIT && !node.drawn
    requires (forall e :: e in moves[..m] ==> e in node.edges) && !NothingPlayed(node, moves[..m])
    requires value == BestOf(node, depth, moves[..m]) && MateClamp(value) >= MateClamp(best) && alpha0 < beta <= best
    ensures AnswersWindow(Minimax(node, depth), alpha0, beta, best)
  {
    PrefixValue(node, depth, moves, m);
    MateClampLaws(value, Minimax(node, depth));
  }

  /** Stopping early at a mate score is safe: nothing above it survives the clamp. */
  lemma MateExit(node: Node, depth: nat, moves: seq<Edge>, m: nat, value: int, alpha0: int, alpha: int, beta: int, best: int)
    requires SameMoves(moves, node.edges) && m <= |moves| && depth < DEPTH_LIMIT && !node.drawn
    requires (forall e :: e in moves[..m] ==> e in node.edges) && !NothingPlayed(node, moves[..m])
    requires value == BestOf(node, depth, moves[..m]) && Standing(value, alpha0, alpha, best)
    requires MAX_NON_MATE <= best < beta
    ensures AnswersWindow(Minimax(node, depth), alpha0, beta, best)
  {
    PrefixValue(node, depth, moves, m);
    MateClampLaws(value, Minimax(node, depth));
  }

  lemma LeafValue(node: Node, depth: nat)
    ensures depth >= DEPTH_LIMIT ==> Minimax(node, depth) == node.evaluation
    ensures depth < DEPTH_LIMIT && node.drawn ==> Minimax(node, depth) == if node.inCheck && node.stuck then Mated(depth) else 0
    ensures Base(node) == if node.inCheck then NO_SCORE else node.evaluation
    ensures BestOf(node, depth, node.edges[..0]) == Base(node) && NothingPlayed(node, node.edges[..0])
  {
  }

  lemma StepValue(node: Node, depth: nat, moves: seq<Edge>, m: nat)
    requires m < |moves| && forall e :: e in moves ==> e in node.edges
    ensures moves[m] in node.edges && (forall e :: e in moves[..m + 1] ==> e in node.edges)
    ensures BestOf(node, depth, moves[..m + 1]) ==
      if Played(node, moves[m]) then Max(BestOf(node, depth, moves[..m]), -Minimax(moves[m].child, depth + 1))
      else BestOf(node, depth, moves[..m])
    ensures NothingPlayed(node, moves[..m + 1]) <==> NothingPlayed(node, moves[..m]) && !Played(node, moves[m])
  {
    assert moves[..m + 1][..m] == moves[..m] && moves[..m + 1][m] == moves[m];
    assert forall e :: e in moves[..m + 1] <==> e in moves[..m] || e == moves[m];
  }

  lemma StandPat(node: Node, depth: nat)
    requires !node.inCheck && !node.drawn && depth < DEPTH_LIMIT
    ensures Minimax(node, depth) >= node.evaluation
  {
    BestOfMeaning(node, depth, node.edges);
  }
}
