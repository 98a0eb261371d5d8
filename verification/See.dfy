/** Static exchange evaluation: the engine's greedy least-valuable-attacker recursion against
    full minimax over every capture choice. */
module See {
  import opened Types
  import opened Lookups
  import opened Rules
  import opened Legality

  function Value(k: PieceType): int {
    if k == PAWN then 100 else if k == KNIGHT then 320 else if k == BISHOP then 330
    else if k == ROOK then 500 else if k == QUEEN then 900 else 20000
  }

  /** Pieces still on the board that attack `to` once `occ` is what is left of it. */
  function Hitters(cells: Cells, to: Square, occ: Bitboard): (r: Bitboard)
    ensures r <= cells.Keys && r <= occ
  {
    Attackers(cells, to, occ) * occ
  }

  lemma EnemiesStay(cells: Cells, w: Bitboard, stm: Color, from: Square)
    requires from in w * Side(cells, stm)
    ensures (w - {from}) * Side(cells, Other(stm)) == w * Side(cells, Other(stm)) && |w - {from}| == |w| - 1
  {
  }

  lemma ValueBounds(k: PieceType)
    ensures 100 <= Value(k) && (k != KING ==> Value(k) <= 900) && (k == KING ==> Value(k) == 20000)
  {
  }

  /** The lowest square of the least valuable type present. */
  function LeastValuable(cells: Cells, mine: Bitboard, k: PieceType): (s: Square)
    requires mine <= cells.Keys && mine != {} && forall t :: t in mine ==> k <= cells[t].kind
    ensures s in mine && forall t :: t in mine ==> cells[s].kind <= cells[t].kind
    decreases 6 - k
  {
    var candidates := mine * OfKind(cells, k);
    if candidates != {} then Lowest(candidates)
    else
      assert forall t :: t in mine && cells[t].kind == k ==> t in candidates;
      LeastValuable(cells, mine, k + 1)
  }

  /** `see_rec`. */
  function SeeRec(cells: Cells, occ: Bitboard, to: Square, stm: Color, captured: int, depth: nat): int
    decreases 32 - depth
  {
    if depth > 31 then 0
    else
      var mine := Hitters(cells, to, occ) * Side(cells, stm);
      if mine == {} then 0
      else
        var from := LeastValuable(cells, mine, PAWN);
        var after := occ - {from};
        if cells[from].kind == KING then
          if Hitters(cells, to, after) * Side(cells, Other(stm)) != {} then 0 else captured
        else Max(0, captured - SeeRec(cells, after, to, Other(stm), Value(cells[from].kind), depth + 1))
  }

  /** The reference: the best over standing pat and every capture, a king's capture counting only
      when nothing can take back. `rest` are the captures still to try. */
  function BruteForce(cells: Cells, occ: Bitboard, to: Square, stm: Color, captured: int, depth: nat, rest: Bitboard): (best: int)
    requires rest <= cells.Keys
    ensures best >= 0
    decreases 32 - depth, |rest|
  {
    if depth > 31 || rest == {} then 0
    else
      var from := Lowest(rest);
      var others := BruteForce(cells, occ, to, stm, captured, depth, rest - {from});
      var after := occ - {from};
      var enemies := Hitters(cells, to, after) * Side(cells, Other(stm));
      if cells[from].kind == KING then
        if enemies != {} then others else Max(others, captured)
      else Max(others, captured - BruteForce(cells, after, to, Other(stm), Value(cells[from].kind), depth + 1, enemies))
  }

  function BruteForceRec(cells: Cells, occ: Bitboard, to: Square, stm: Color, captured: int, depth: nat): int {
    BruteForce(cells, occ, to, stm, captured, depth, Hitters(cells, to, occ) * Side(cells, stm))
  }

  /** `see`: quiet moves are worth their promotion; captures what the exchange nets. */
  function Exchange(cells: Cells, stm: Color, m: Move): int
    requires m.from in cells
  {
    if !IsCapture(m) && m.to !in cells then
      if m.PromotionType().None? then 0 else Value(m.promotion) - Value(PAWN)
    else
      CapturedValue(cells, m) - SeeRec(cells, ExchangeOccupancy(cells, stm, m), m.to, Other(stm), MovingValue(cells, m), 0)
  }

  function CapturedValue(cells: Cells, m: Move): int {
    if m.to in cells then Value(cells[m.to].kind) else 100
  }

  function MovingValue(cells: Cells, m: Move): int
    requires m.from in cells
  {
    Value(if m.PromotionType().Some? then m.promotion else cells[m.from].kind)
  }

  function ExchangeOccupancy(cells: Cells, stm: Color, m: Move): Bitboard {
    var occ := Xor(cells.Keys, {m.from});
    if m.kind == EnPassant && 0 <= Behind(m.to, stm) < 64 then Xor(occ, {Behind(m.to, stm)}) else occ
  }

  // ---- bounds in every position ----

  lemma {:induction false} SeeRecBounds(cells: Cells, occ: Bitboard, to: Square, stm: Color, captured: int, depth: nat)
    requires captured >= 0
    ensures 0 <= SeeRec(cells, occ, to, stm, captured, depth) <= captured
    decreases 32 - depth
  {
    var mine := Hitters(cells, to, occ) * Side(cells, stm);
    if depth <= 31 && mine != {} {
      var from := LeastValuable(cells, mine, PAWN);
      if cells[from].kind != KING {
        SeeRecBounds(cells, occ - {from}, to, Other(stm), Value(cells[from].kind), depth + 1);
      }
    }
  }

  /** A capture nets at most what it takes and at least that minus what it risks. */
  lemma ExchangeBounds(cells: Cells, stm: Color, m: Move)
    requires m.from in cells && (m.to in cells || m.kind == EnPassant)
    ensures CapturedValue(cells, m) - MovingValue(cells, m) <= Exchange(cells, stm, m) <= CapturedValue(cells, m)
  {
    SeeRecBounds(cells, ExchangeOccupancy(cells, stm, m), m.to, Other(stm), MovingValue(cells, m), 0);
  }

  /** `see_rec` without its depth guard. */
  function SeeFree(cells: Cells, occ: Bitboard, to: Square, stm: Color, captured: int): int
    decreases |occ|
  {
    var mine := Hitters(cells, to, occ) * Side(cells, stm);
    if mine == {} then 0
    else
      var from := LeastValuable(cells, mine, PAWN);
      var after := occ - {from};
      assert |after| == |occ| - 1;
      if cells[from].kind == KING then
        if Hitters(cells, to, after) * Side(cells, Other(stm)) != {} then 0 else captured
      else Max(0, captured - SeeFree(cells, after, to, Other(stm), Value(cells[from].kind)))
  }

  /** With at most 32 men on the board the depth guard never fires. */
  lemma {:induction false} DepthGuardUnreachable(cells: Cells, occ: Bitboard, to: Square, stm: Color, captured: int, depth: nat)
    requires |occ| + depth <= 32
    ensures SeeRec(cells, occ, to, stm, captured, depth) == SeeFree(cells, occ, to, stm, captured)
    decreases 32 - depth
  {
    hide Hitters, Value, LeastValuable, Side;
    var mine := Hitters(cells, to, occ) * Side(cells, stm);
    if mine == {} {
    } else {
      var from := LeastValuable(cells, mine, PAWN);
      assert |occ - {from}| == |occ| - 1;
      if cells[from].kind != KING {
        DepthGuardUnreachable(cells, occ - {from}, to, Other(stm), Value(cells[from].kind), depth + 1);
      }
    }
  }

  // ---- greedy equals minimax when captures uncover nothing ----

  /** Removing attackers of `to` never brings a new one into view. */
  predicate UncoversNothing(cells: Cells, to: Square, occ: Bitboard) {
    forall gone: Bitboard :: gone <= Hitters(cells, to, occ) ==> Hitters(cells, to, occ - gone) == Hitters(cells, to, occ) - gone
  }

  /** The exchange over a fixed set `w` of attackers: greedy ... */
  function Greedy(cells: Cells, w: Bitboard, stm: Color, captured: int): int
    requires w <= cells.Keys
    decreases |w|
  {
    var mine := w * Side(cells, stm);
    if mine == {} then 0
    else
      var from := LeastValuable(cells, mine, PAWN);
      assert |w - {from}| == |w| - 1;
      if cells[from].kind == KING then if w * Side(cells, Other(stm)) != {} then 0 else captured
      else Max(0, captured - Greedy(cells, w - {from}, Other(stm), Value(cells[from].kind)))
  }

  /** ... and by minimax: what capturing with `from` is worth, and the best of all captures. */
  function Choice(cells: Cells, w: Bitboard, stm: Color, captured: int, from: Square): int
    requires w <= cells.Keys && from in w
    decreases |w|, 0
  {
    assert |w - {from}| == |w| - 1;
    if cells[from].kind == KING then if w * Side(cells, Other(stm)) != {} then 0 else captured
    else captured - Best(cells, w - {from}, Other(stm), Value(cells[from].kind))
  }

  function BestOf(cells: Cells, w: Bitboard, stm: Color, captured: int, rest: Bitboard): int
    requires w <= cells.Keys && rest <= w
    decreases |w|, 1, |rest|
  {
    if rest == {} then 0
    else var from := Lowest(rest); Max(BestOf(cells, w, stm, captured, rest - {from}), Choice(cells, w, stm, captured, from))
  }

  function Best(cells: Cells, w: Bitboard, stm: Color, captured: int): int
    requires w <= cells.Keys
    decreases |w|, 2
  {
    BestOf(cells, w, stm, captured, w * Side(cells, stm))
  }

  lemma {:induction false} BestOfMeaning(cells: Cells, w: Bitboard, stm: Color, captured: int, rest: Bitboard)
    requires w <= cells.Keys && rest <= w
    ensures 0 <= BestOf(cells, w, stm, captured, rest)
    ensures forall s :: s in rest ==> Choice(cells, w, stm, captured, s) <= BestOf(cells, w, stm, captured, rest)
    ensures BestOf(cells, w, stm, captured, rest) > 0 ==>
      exists s :: s in rest && Choice(cells, w, stm, captured, s) == BestOf(cells, w, stm, captured, rest)
    decreases |rest|
  {
    if rest != {} {
      BestOfMeaning(cells, w, stm, captured, rest - {Lowest(rest)});
    }
  }

  /** Raising the stake by `d` raises the best result by at most `d`, and never lowers it. */
  lemma BestLipschitz(cells: Cells, w: Bitboard, stm: Color, captured: int, d: nat)
    requires w <= cells.Keys
    ensures Best(cells, w, stm, captured) <= Best(cells, w, stm, captured + d) <= Best(cells, w, stm, captured) + d
  {
    hide BestOf, Value;
    var mine := w * Side(cells, stm);
    BestOfMeaning(cells, w, stm, captured, mine);
    BestOfMeaning(cells, w, stm, captured + d, mine);
  }

  predicate Cheaper(cells: Cells, a: Square, b: Square)
    requires a in cells && b in cells
  {
    Value(cells[a].kind) <= Value(cells[b].kind) && cells[a].color == cells[b].color
  }

  function Gap(cells: Cells, a: Square, b: Square): int
    requires a in cells && b in cells
  {
    Value(cells[b].kind) - Value(cells[a].kind)
  }

  /** Having a cheaper attacker instead of a dearer one gains its owner at most the difference. */
  lemma {:induction false} OwnerGains(cells: Cells, v: Bitboard, a: Square, b: Square, captured: int)
    requires v <= cells.Keys && a in cells && b in cells && a !in v && b !in v && Cheaper(cells, a, b)
    requires captured <= 900
    ensures Best(cells, v + {a}, cells[a].color, captured) <= Best(cells, v + {b}, cells[a].color, captured) + Gap(cells, a, b)
    decreases |v|, 1
  {
    hide BestOf, Value;
    var stm := cells[a].color;
    var wa, wb := v + {a}, v + {b};
    ValueBounds(cells[a].kind);
    ValueBounds(cells[b].kind);
    BestOfMeaning(cells, wa, stm, captured, wa * Side(cells, stm));
    BestOfMeaning(cells, wb, stm, captured, wb * Side(cells, stm));
    forall s | s in wa * Side(cells, stm)
      ensures Choice(cells, wa, stm, captured, s) <= Best(cells, wb, stm, captured) + Gap(cells, a, b)
    {
      OwnerChoice(cells, v, a, b, captured, s);
    }
  }

  lemma {:induction false} OwnerChoice(cells: Cells, v: Bitboard, a: Square, b: Square, captured: int, s: Square)
    requires v <= cells.Keys && a in cells && b in cells && a !in v && b !in v && Cheaper(cells, a, b)
    requires captured <= 900 && s in v + {a} && cells[s].color == cells[a].color
    ensures Choice(cells, v + {a}, cells[a].color, captured, s) <= Best(cells, v + {b}, cells[a].color, captured) + Gap(cells, a, b)
    decreases |v|, 0
  {
    hide BestOf, Value;
    var stm := cells[a].color;
    var wa, wb := v + {a}, v + {b};
    if s == a {
      OwnerTakesCheaper(cells, v, a, b, captured);
    } else {
      GapSign(cells, a, b);
      OwnMoveBelowBest(cells, wb, stm, captured, s);
      EnemiesAlike(cells, v, a, b);
      if cells[s].kind != KING {
        ValueBounds(cells[s].kind);
        assert wa - {s} == (v - {s}) + {a} && wb - {s} == (v - {s}) + {b};
        assert |v - {s}| == |v| - 1;
        OpponentGains(cells, v - {s}, a, b, Value(cells[s].kind));
      }
    }
  }

  lemma OwnMoveBelowBest(cells: Cells, w: Bitboard, stm: Color, captured: int, s: Square)
    requires w <= cells.Keys && s in w && cells[s].color == stm
    ensures Choice(cells, w, stm, captured, s) <= Best(cells, w, stm, captured)
  {
    hide BestOf, Choice;
    assert s in w * Side(cells, stm);
    BestOfMeaning(cells, w, stm, captured, w * Side(cells, stm));
  }

  lemma EnemiesAlike(cells: Cells, v: Bitboard, a: Square, b: Square)
    requires a in cells && b in cells && cells[a].color == cells[b].color
    ensures (v + {a}) * Side(cells, Other(cells[a].color)) == v * Side(cells, Other(cells[a].color))
    ensures (v + {b}) * Side(cells, Other(cells[a].color)) == v * Side(cells, Other(cells[a].color))
  {
  }

  /** Taking with the cheaper piece against taking with the dearer one in its place. */
  lemma OwnerTakesCheaper(cells: Cells, v: Bitboard, a: Square, b: Square, captured: int)
    requires v <= cells.Keys && a in cells && b in cells && a !in v && b !in v && Cheaper(cells, a, b) && captured <= 900
    ensures Choice(cells, v + {a}, cells[a].color, captured, a) <= Best(cells, v + {b}, cells[a].color, captured) + Gap(cells, a, b)
  {
    hide BestOf, Value;
    var stm := cells[a].color;
    var enemies := v * Side(cells, Other(stm));
    ValueBounds(cells[a].kind);
    ValueBounds(cells[b].kind);
    OwnMoveBelowBest(cells, v + {b}, stm, captured, b);
    EnemiesAlike(cells, v, a, b);
    BestOfMeaning(cells, v + {b}, stm, captured, (v + {b}) * Side(cells, stm));
    assert v + {a} - {a} == v && v + {b} - {b} == v;
    if cells[a].kind != KING {
      BestOfMeaning(cells, v, Other(stm), Value(cells[a].kind), enemies);
      if cells[b].kind != KING {
        BestLipschitz(cells, v, Other(stm), Value(cells[a].kind), Gap(cells, a, b));
      }
    }
  }

  /** Facing a dearer attacker instead of a cheaper one gains the opponent at most the difference. */
  lemma {:induction false} OpponentGains(cells: Cells, v: Bitboard, a: Square, b: Square, captured: int)
    requires v <= cells.Keys && a in cells && b in cells && a !in v && b !in v && Cheaper(cells, a, b)
    ensures Best(cells, v + {b}, Other(cells[a].color), captured) <= Best(cells, v + {a}, Other(cells[a].color), captured) + Gap(cells, a, b)
    decreases |v|, 1
  {
    hide BestOf, Choice, Cheaper;
    var stm := Other(cells[a].color);
    var wa, wb := v + {a}, v + {b};
    BestOfMeaning(cells, wa, stm, captured, wa * Side(cells, stm));
    BestOfMeaning(cells, wb, stm, captured, wb * Side(cells, stm));
    forall s | s in wb * Side(cells, stm)
      ensures Choice(cells, wb, stm, captured, s) <= Best(cells, wa, stm, captured) + Gap(cells, a, b)
    {
      OpponentChoice(cells, v, a, b, captured, s);
    }
    assert Gap(cells, a, b) >= 0 by {
      GapSign(cells, a, b);
    }
  }

  lemma GapSign(cells: Cells, a: Square, b: Square)
    requires a in cells && b in cells && Cheaper(cells, a, b)
    ensures Gap(cells, a, b) >= 0
  {
  }

  lemma {:induction false} OpponentChoice(cells: Cells, v: Bitboard, a: Square, b: Square, captured: int, s: Square)
    requires v <= cells.Keys && a in cells && b in cells && a !in v && b !in v && Cheaper(cells, a, b)
    requires s in v + {b} && cells[s].color == Other(cells[a].color)
    ensures Choice(cells, v + {b}, Other(cells[a].color), captured, s) <=
      Best(cells, v + {a}, Other(cells[a].color), captured) + Gap(cells, a, b)
    decreases |v|, 0
  {
    hide BestOf, Value;
    var stm := Other(cells[a].color);
    var wa, wb := v + {a}, v + {b};
    BestOfMeaning(cells, wa, stm, captured, wa * Side(cells, stm));
    assert a in wa * Side(cells, Other(stm)) && b in wb * Side(cells, Other(stm));
    assert s in wa * Side(cells, stm) && Choice(cells, wa, stm, captured, s) <= Best(cells, wa, stm, captured);
    if cells[s].kind != KING {
      ValueBounds(cells[s].kind);
      assert wa - {s} == (v - {s}) + {a} && wb - {s} == (v - {s}) + {b};
      assert |v - {s}| == |v| - 1;
      OwnerGains(cells, v - {s}, a, b, Value(cells[s].kind));
    }
  }

  /** Capturing with a cheaper piece is never worse. */
  lemma CheaperFirst(cells: Cells, w: Bitboard, stm: Color, captured: int, a: Square, b: Square)
    requires w <= cells.Keys && a in w && b in w && a != b && Cheaper(cells, a, b) && cells[a].color == stm
    requires cells[b].kind != KING
    requires cells[a].kind != KING
    ensures Choice(cells, w, stm, captured, b) <= Choice(cells, w, stm, captured, a)
  {
    hide BestOf, Choice;
    var v, enemy := w - {a, b}, Other(stm);
    var va, vb := Value(cells[a].kind), Value(cells[b].kind);
    assert w - {a} == v + {b} && w - {b} == v + {a};
    BestOfMeaning(cells, v + {b}, enemy, va, (v + {b}) * Side(cells, enemy));
    BestOfMeaning(cells, v + {a}, enemy, vb, (v + {a}) * Side(cells, enemy));
    forall s | s in (v + {b}) * Side(cells, enemy)
      ensures Choice(cells, v + {b}, enemy, va, s) <= Best(cells, v + {a}, enemy, vb)
    {
      TakeBack(cells, v, a, b, s);
    }
    ChoiceMeaning(cells, w, stm, captured, a);
    ChoiceMeaning(cells, w, stm, captured, b);
  }

  lemma ChoiceMeaning(cells: Cells, w: Bitboard, stm: Color, captured: int, s: Square)
    requires w <= cells.Keys && s in w && cells[s].kind != KING
    ensures Choice(cells, w, stm, captured, s) == captured - Best(cells, w - {s}, Other(stm), Value(cells[s].kind))
  {
  }

  /** Taking back the cheaper piece with the dearer one still there is worth no more than taking
      back the dearer piece with the cheaper one there. */
  lemma TakeBack(cells: Cells, v: Bitboard, a: Square, b: Square, s: Square)
    requires v <= cells.Keys && a in cells && b in cells && a !in v && b !in v && a != b && Cheaper(cells, a, b)
    requires s in v + {b} && cells[s].color == Other(cells[a].color)
    ensures Choice(cells, v + {b}, Other(cells[a].color), Value(cells[a].kind), s) <=
      Best(cells, v + {a}, Other(cells[a].color), Value(cells[b].kind))
  {
    hide BestOf, Value;
    var stm, enemy := cells[a].color, Other(cells[a].color);
    var va, vb := Value(cells[a].kind), Value(cells[b].kind);
    ValueBounds(cells[b].kind);
    BestOfMeaning(cells, v + {a}, enemy, vb, (v + {a}) * Side(cells, enemy));
    assert s in (v + {a}) * Side(cells, enemy);
    assert Choice(cells, v + {a}, enemy, vb, s) <= Best(cells, v + {a}, enemy, vb);
    assert b in (v + {b}) * Side(cells, stm) && a in (v + {a}) * Side(cells, stm);
    if cells[s].kind != KING {
      ValueBounds(cells[s].kind);
      assert v + {b} - {s} == (v - {s}) + {b} && v + {a} - {s} == (v - {s}) + {a};
      OwnerGains(cells, v - {s}, a, b, Value(cells[s].kind));
    }
  }

  predicate OneKingEach(cells: Cells) {
    forall s, t :: s in cells && t in cells && cells[s].kind == KING && cells[s] == cells[t] ==> s == t
  }

  /** Over a fixed set of attackers the greedy choice is a best choice. */
  lemma {:induction false} GreedyIsBest(cells: Cells, w: Bitboard, stm: Color, captured: int)
    requires w <= cells.Keys && OneKingEach(cells) && captured >= 0
    ensures Greedy(cells, w, stm, captured) == Best(cells, w, stm, captured)
    decreases |w|
  {
    hide LeastValuable, BestOf, Side, Choice, Greedy, OneKingEach;
    var mine := w * Side(cells, stm);
    BestOfMeaning(cells, w, stm, captured, mine);
    if mine != {} {
      var from := LeastValuable(cells, mine, PAWN);
      assert from in Side(cells, stm) && Choice(cells, w, stm, captured, from) <= Best(cells, w, stm, captured);
      EnemiesStay(cells, w, stm, from);
      if cells[from].kind != KING {
        ValueBounds(cells[from].kind);
        GreedyIsBest(cells, w - {from}, Other(stm), Value(cells[from].kind));
      }
      GreedyStep(cells, w, stm, captured);
      forall s | s in mine ensures Choice(cells, w, stm, captured, s) <= Max(0, Choice(cells, w, stm, captured, from)) {
        InSide(cells, stm, s);
        InSide(cells, stm, from);
        FirstIsBest(cells, w, stm, captured, from, s);
      }
    } else {
      NoCapture(cells, w, stm, captured);
    }
  }

  lemma InSide(cells: Cells, c: Color, s: Square)
    requires s in Side(cells, c)
    ensures s in cells && cells[s].color == c
  {
  }

  lemma NoCapture(cells: Cells, w: Bitboard, stm: Color, captured: int)
    requires w <= cells.Keys && w * Side(cells, stm) == {}
    ensures Greedy(cells, w, stm, captured) == 0 && Best(cells, w, stm, captured) == 0
  {
  }

  lemma GreedyStep(cells: Cells, w: Bitboard, stm: Color, captured: int)
    requires w <= cells.Keys && w * Side(cells, stm) != {} && captured >= 0
    requires
      var from := LeastValuable(cells, w * Side(cells, stm), PAWN);
      cells[from].kind != KING ==>
        Greedy(cells, w - {from}, Other(stm), Value(cells[from].kind)) == Best(cells, w - {from}, Other(stm), Value(cells[from].kind))
    ensures Greedy(cells, w, stm, captured) == Max(0, Choice(cells, w, stm, captured, LeastValuable(cells, w * Side(cells, stm), PAWN)))
  {
    hide LeastValuable, Best, Value, Side;
  }

  lemma ValueOrder(j: PieceType, k: PieceType)
    requires j <= k
    ensures Value(j) <= Value(k)
  {
  }

  lemma FirstIsBest(cells: Cells, w: Bitboard, stm: Color, captured: int, from: Square, s: Square)
    requires w <= cells.Keys && OneKingEach(cells) && captured >= 0
    requires from in w && s in w && cells[from].color == stm == cells[s].color && cells[from].kind <= cells[s].kind
    ensures Choice(cells, w, stm, captured, s) <= Max(0, Choice(cells, w, stm, captured, from))
  {
    ValueOrder(cells[from].kind, cells[s].kind);
    hide Value;
    if s != from && cells[s].kind != KING {
      CheaperFirst(cells, w, stm, captured, from, s);
    } else if s != from && cells[from].kind != KING {
      var enemies := (w - {from}) * Side(cells, Other(stm));
      assert enemies == w * Side(cells, Other(stm));
      if enemies == {} {
        BestOfMeaning(cells, w - {from}, Other(stm), Value(cells[from].kind), enemies);
      }
    }
  }

  // ---- back to the board ----

  lemma UncoversLess(cells: Cells, to: Square, occ: Bitboard, s: Square)
    requires UncoversNothing(cells, to, occ) && s in Hitters(cells, to, occ)
    ensures Hitters(cells, to, occ - {s}) == Hitters(cells, to, occ) - {s}
    ensures UncoversNothing(cells, to, occ - {s})
  {
    hide Attackers, Hitters;
    var all := Hitters(cells, to, occ);
    assert {s} <= all && Hitters(cells, to, occ - {s}) == all - {s};
    forall gone: Bitboard | gone <= Hitters(cells, to, occ - {s})
      ensures Hitters(cells, to, occ - {s} - gone) == Hitters(cells, to, occ - {s}) - gone
    {
      assert gone + {s} <= all && occ - {s} - gone == occ - (gone + {s});
      assert all - (gone + {s}) == all - {s} - gone;
    }
  }

  lemma {:induction false} SeeIsGreedy(cells: Cells, occ: Bitboard, to: Square, stm: Color, captured: int)
    requires UncoversNothing(cells, to, occ)
    ensures SeeFree(cells, occ, to, stm, captured) == Greedy(cells, Hitters(cells, to, occ), stm, captured)
    decreases |occ|
  {
    hide Attackers, UncoversNothing, LeastValuable, Value;
    var w := Hitters(cells, to, occ);
    var mine := w * Side(cells, stm);
    if mine != {} {
      var from := LeastValuable(cells, mine, PAWN);
      UncoversLess(cells, to, occ, from);
      EnemiesStay(cells, w, stm, from);
      if cells[from].kind != KING {
        assert |occ - {from}| == |occ| - 1;
        SeeIsGreedy(cells, occ - {from}, to, Other(stm), Value(cells[from].kind));
      }
    }
  }

  lemma {:induction false} BruteIsBest(cells: Cells, occ: Bitboard, to: Square, stm: Color, captured: int, depth: nat, rest: Bitboard)
    requires UncoversNothing(cells, to, occ) && |occ| + depth <= 32 && rest <= Hitters(cells, to, occ) * Side(cells, stm)
    ensures BruteForce(cells, occ, to, stm, captured, depth, rest) == BestOf(cells, Hitters(cells, to, occ), stm, captured, rest)
    decreases 32 - depth, |rest|
  {
    hide Attackers, UncoversNothing, Value, Side, Hitters;
    var w := Hitters(cells, to, occ);
    if rest != {} {
      var from := Lowest(rest);
      assert |occ - {from}| == |occ| - 1;
      BruteIsBest(cells, occ, to, stm, captured, depth, rest - {from});
      BestOfMeaning(cells, w, stm, captured, rest - {from});
      UncoversLess(cells, to, occ, from);
      EnemiesStay(cells, w, stm, from);
      var enemies := w * Side(cells, Other(stm));
      if cells[from].kind != KING {
        BruteIsBest(cells, occ - {from}, to, Other(stm), Value(cells[from].kind), depth + 1, enemies);
        assert Best(cells, w - {from}, Other(stm), Value(cells[from].kind)) ==
          BestOf(cells, w - {from}, Other(stm), Value(cells[from].kind), enemies);
      }
    }
  }

  /** A slider in line with `to` that only attackers of `to` stand in the way of. */
  predicate StandsBehind(cells: Cells, to: Square, occ: Bitboard, s: Square) {
    && s in cells && s in occ && s !in Hitters(cells, to, occ) && Slides(cells[s].kind, s, to)
    && forall x: Square :: InBetween(s, x, to) && x in occ ==> x in Hitters(cells, to, occ)
  }

  predicate NothingBehind(cells: Cells, to: Square, occ: Bitboard) {
    forall s: Square :: !StandsBehind(cells, to, occ, s)
  }

  /** A piece that comes into view when attackers leave is a slider behind them. */
  lemma ComesIntoView(cells: Cells, to: Square, occ: Bitboard, gone: Bitboard, s: Square)
    requires gone <= Hitters(cells, to, occ) && s in Hitters(cells, to, occ - gone)
    ensures s in Hitters(cells, to, occ) || StandsBehind(cells, to, occ, s)
  {
    hide InBetween, RookLine, BishopLine;
    if s !in Hitters(cells, to, occ) {
      forall x: Square | InBetween(s, x, to) && x in occ ensures x in Hitters(cells, to, occ) {
        assert x !in occ - gone;
      }
    }
  }

  lemma StaysInView(cells: Cells, to: Square, occ: Bitboard, gone: Bitboard, s: Square)
    requires s in Hitters(cells, to, occ) && s !in gone
    ensures s in Hitters(cells, to, occ - gone)
  {
    hide InBetween, RookLine, BishopLine;
  }

  lemma BehindComesIntoView(cells: Cells, to: Square, occ: Bitboard, s: Square)
    requires StandsBehind(cells, to, occ, s)
    ensures s in Hitters(cells, to, occ - Hitters(cells, to, occ))
  {
    hide InBetween, RookLine, BishopLine;
  }

  /** The condition on the board: no slider stands behind the attackers. */
  lemma UncoversExactly(cells: Cells, to: Square, occ: Bitboard)
    ensures UncoversNothing(cells, to, occ) <==> NothingBehind(cells, to, occ)
  {
    hide Hitters, StandsBehind;
    var all := Hitters(cells, to, occ);
    if s: Square :| StandsBehind(cells, to, occ, s) {
      BehindComesIntoView(cells, to, occ, s);
      assert s !in all - all;
    } else {
      forall gone: Bitboard | gone <= all ensures Hitters(cells, to, occ - gone) == all - gone {
        forall s | s in Hitters(cells, to, occ - gone) ensures s in all - gone {
          ComesIntoView(cells, to, occ, gone, s);
        }
        forall s | s in all - gone ensures s in Hitters(cells, to, occ - gone) {
          StaysInView(cells, to, occ, gone, s);
        }
      }
    }
  }

  /** When no slider stands behind the attackers, the greedy recursion finds the value of full
      minimax over all capture orders, king rule included. */
  lemma SeeIsMinimax(cells: Cells, occ: Bitboard, to: Square, stm: Color, captured: int)
    requires OneKingEach(cells) && captured >= 0 && |occ| <= 32 && NothingBehind(cells, to, occ)
    ensures SeeRec(cells, occ, to, stm, captured, 0) == BruteForceRec(cells, occ, to, stm, captured, 0)
  {
    hide UncoversNothing, NothingBehind, Attackers;
    UncoversExactly(cells, to, occ);
    DepthGuardUnreachable(cells, occ, to, stm, captured, 0);
    SeeIsGreedy(cells, occ, to, stm, captured);
    GreedyIsBest(cells, Hitters(cells, to, occ), stm, captured);
    BruteIsBest(cells, occ, to, stm, captured, 0, Hitters(cells, to, occ) * Side(cells, stm));
  }

  /** `see_bruteforce`: the exchange valued by full minimax. */
  function BruteExchange(cells: Cells, stm: Color, m: Move): int
    requires m.from in cells
  {
    if !IsCapture(m) && m.to !in cells then
      if m.PromotionType().None? then 0 else Value(m.promotion) - Value(PAWN)
    else
      CapturedValue(cells, m) - BruteForceRec(cells, ExchangeOccupancy(cells, stm, m), m.to, Other(stm), MovingValue(cells, m), 0)
  }

  /** `see` agrees with its brute-force reference on every move that leaves no slider behind the
      attackers of its target. */
  lemma ExchangeIsMinimax(cells: Cells, stm: Color, m: Move)
    requires m.from in cells && OneKingEach(cells) && |ExchangeOccupancy(cells, stm, m)| <= 32
    requires NothingBehind(cells, m.to, ExchangeOccupancy(cells, stm, m))
    ensures Exchange(cells, stm, m) == BruteExchange(cells, stm, m)
  {
    ValueBounds(if m.PromotionType().Some? then m.promotion else cells[m.from].kind);
    SeeIsMinimax(cells, ExchangeOccupancy(cells, stm, m), m.to, Other(stm), MovingValue(cells, m));
    hide OneKingEach, NothingBehind, ExchangeOccupancy, SeeRec, BruteForceRec, Value;
  }

  // ---- where the two differ ----

  /** White: pawn d4, king f4, rook e5. Black: knight d7, bishop c3, queen b2, king a8. After Nxe5
      the greedy answer dxe5 uncovers the bishop, backed by the queen; Kxe5 is safe. */
  const UNCOVERING: Cells := map[27 := Piece(PAWN, WHITE), 29 := Piece(KING, WHITE), 36 := Piece(ROOK, WHITE),
                                 51 := Piece(KNIGHT, BLACK), 18 := Piece(BISHOP, BLACK), 9 := Piece(QUEEN, BLACK),
                                 56 := Piece(KING, BLACK)]

  const KNIGHT_TAKES: Move := Move(51, 36, PAWN, Capture)

  lemma BishopSight(occ: Bitboard)
    ensures Attacks(Piece(BISHOP, BLACK), 18, 36, occ) <==> 27 !in occ
  {
    assert forall x: Square :: InBetween(18, x, 36) <==> x == 27;
    hide InBetween;
  }

  lemma QueenSight(occ: Bitboard)
    ensures Attacks(Piece(QUEEN, BLACK), 9, 36, occ) <==> 27 !in occ && 18 !in occ
  {
    assert forall x: Square :: InBetween(9, x, 36) <==> x == 27 || x == 18;
    hide InBetween;
  }

  lemma StepSights(occ: Bitboard)
    ensures Attacks(Piece(PAWN, WHITE), 27, 36, occ) && Attacks(Piece(KING, WHITE), 29, 36, occ)
    ensures !Attacks(Piece(ROOK, WHITE), 36, 36, occ) && !Attacks(Piece(KING, BLACK), 56, 36, occ)
  {
  }

  /** Who can take on e5 once the knight has left d7. */
  lemma HittersOnE5(occ: Bitboard)
    requires occ <= UNCOVERING.Keys - {51}
    ensures Hitters(UNCOVERING, 36, occ) * Side(UNCOVERING, WHITE) == {27, 29} * occ
    ensures Hitters(UNCOVERING, 36, occ) * Side(UNCOVERING, BLACK) ==
      if 27 in occ then {} else if 18 in occ then {18} else {9} * occ
  {
    BishopSight(occ);
    QueenSight(occ);
    StepSights(occ);
    hide Attacks, File, Rank;
  }

  /** One step of the greedy recursion with a single least valuable capturer. */
  lemma SeeStep(cells: Cells, occ: Bitboard, to: Square, stm: Color, captured: int, depth: nat, from: Square)
    requires depth <= 31 && from in Hitters(cells, to, occ) * Side(cells, stm)
    requires forall t :: t in Hitters(cells, to, occ) * Side(cells, stm) && t != from ==> cells[from].kind < cells[t].kind
    ensures SeeRec(cells, occ, to, stm, captured, depth) ==
      if cells[from].kind == KING then
        if Hitters(cells, to, occ - {from}) * Side(cells, Other(stm)) != {} then 0 else captured
      else Max(0, captured - SeeRec(cells, occ - {from}, to, Other(stm), Value(cells[from].kind), depth + 1))
  {
    hide Hitters, Side, Value;
    var least := LeastValuable(cells, Hitters(cells, to, occ) * Side(cells, stm), PAWN);
    hide LeastValuable;
    assert least == from;
  }

  /** Pawn takes, bishop takes back, and the king may not: the greedy line, last capture first. */
  lemma PawnThenBishop(cells: Cells, occ: Bitboard, to: Square, pawn: Square, bishop: Square, king: Square, captured: int)
    requires {pawn, bishop, king} <= cells.Keys && captured >= 100
    requires cells[pawn].kind == PAWN && cells[bishop].kind == BISHOP && cells[king].kind == KING
    requires Hitters(cells, to, occ) * Side(cells, WHITE) == {pawn, king}
    requires Hitters(cells, to, occ - {pawn}) * Side(cells, BLACK) == {bishop}
    requires Hitters(cells, to, occ - {pawn} - {bishop}) * Side(cells, WHITE) == {king}
    requires Hitters(cells, to, occ - {pawn} - {bishop} - {king}) * Side(cells, BLACK) != {}
    ensures SeeRec(cells, occ, to, WHITE, captured, 0) == captured - 100
  {
    hide Hitters, Side, SeeRec;
    SeeStep(cells, occ - {pawn} - {bishop}, to, WHITE, 330, 2, king);
    SeeStep(cells, occ - {pawn}, to, BLACK, 100, 1, bishop);
    SeeStep(cells, occ, to, WHITE, captured, 0, pawn);
  }

  lemma GreedyLine(occ: Bitboard)
    requires occ == UNCOVERING.Keys - {51}
    ensures SeeRec(UNCOVERING, occ, 36, WHITE, 320, 0) == 220
  {
    hide Hitters, Side, SeeRec;
    HittersOnE5(occ);
    HittersOnE5(occ - {27});
    HittersOnE5(occ - {27} - {18});
    HittersOnE5(occ - {27} - {18} - {29});
    assert 9 in Hitters(UNCOVERING, 36, occ - {27} - {18} - {29}) * Side(UNCOVERING, BLACK);
    PawnThenBishop(UNCOVERING, occ, 36, 27, 18, 29, 320);
  }

  lemma KingFirstIsBetter(occ: Bitboard)
    requires occ == UNCOVERING.Keys - {51}
    ensures BruteForceRec(UNCOVERING, occ, 36, WHITE, 320, 0) == 320
  {
    HittersOnE5(occ);
    HittersOnE5(occ - {29});
    var rest: Bitboard := {27, 29};
    assert UNCOVERING[29] == Piece(KING, WHITE) && UNCOVERING[27] == Piece(PAWN, WHITE) && rest <= UNCOVERING.Keys;
    hide Hitters, Attacks, Side, Value;
    assert Hitters(UNCOVERING, 36, occ) * Side(UNCOVERING, WHITE) == rest;
    assert rest - {27} == {29} && Lowest(rest) == 27;
    assert BruteForce(UNCOVERING, occ, 36, WHITE, 320, 0, {29}) == 320;
  }

  lemma ExchangeNumbers()
    ensures KNIGHT_TAKES.from in UNCOVERING && ExchangeOccupancy(UNCOVERING, BLACK, KNIGHT_TAKES) == UNCOVERING.Keys - {51}
    ensures CapturedValue(UNCOVERING, KNIGHT_TAKES) == 500 && MovingValue(UNCOVERING, KNIGHT_TAKES) == 320
  {
  }

  lemma UncoveringIsOrderly()
    ensures OneKingEach(UNCOVERING) && KNIGHT_TAKES.from in UNCOVERING && WellTyped(UNCOVERING, BLACK, KNIGHT_TAKES)
  {
  }

  /** A capture with one king a side and few men, where `see` and its reference differ. */
  lemma GreedyIsNotAlwaysBest()
    ensures OneKingEach(UNCOVERING) && KNIGHT_TAKES.from in UNCOVERING && WellTyped(UNCOVERING, BLACK, KNIGHT_TAKES)
    ensures Exchange(UNCOVERING, BLACK, KNIGHT_TAKES) == 280 && BruteExchange(UNCOVERING, BLACK, KNIGHT_TAKES) == 180
  {
    hide SeeRec, BruteForceRec, ExchangeOccupancy, CapturedValue, MovingValue, OneKingEach, WellTyped;
    var occ := UNCOVERING.Keys - {51};
    UncoveringIsOrderly();
    ExchangeNumbers();
    GreedyLine(occ);
    KingFirstIsBetter(occ);
  }
}
