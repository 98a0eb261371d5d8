/** Accumulator updates: batches of signed weight rows added to two accumulators modulo 2^16,
    lane by lane, and the board's decomposition of a batch into widened saturating kernels. */
module Kernels {
  import opened Types

  /** Truncation to a signed 16-bit value. */
  function Wrap16(x: int): (r: int)
    ensures -32768 <= r < 32768 && (x - r) % 65536 == 0
  {
    (x + 32768) % 65536 - 32768
  }

  lemma WrapAdd(x: int, y: int)
    ensures Wrap16(Wrap16(x) + y) == Wrap16(x + y)
  {
  }

  /** One signed row for each perspective. */
  datatype Delta = Delta(a: seq<int>, b: seq<int>, add: bool)

  predicate Covers(ops: seq<Delta>, lanes: nat) {
    forall d :: d in ops ==> |d.a| == lanes && |d.b| == lanes
  }

  function Signed(d: Delta, white: bool, lane: nat): int
    requires lane < |d.a| && lane < |d.b|
  {
    var w := if white then d.a[lane] else d.b[lane];
    if d.add then w else -w
  }

  /** What a batch adds to one lane of one perspective, over the integers. */
  function Change(ops: seq<Delta>, lanes: nat, white: bool, lane: nat): int
    requires Covers(ops, lanes) && lane < lanes
  {
    if ops == [] then 0
    else Change(ops[..|ops| - 1], lanes, white, lane) + Signed(ops[|ops| - 1], white, lane)
  }

  lemma {:induction false} ChangeConcat(x: seq<Delta>, y: seq<Delta>, lanes: nat, white: bool, lane: nat)
    requires Covers(x, lanes) && Covers(y, lanes) && lane < lanes
    ensures Covers(x + y, lanes)
    ensures Change(x + y, lanes, white, lane) == Change(x, lanes, white, lane) + Change(y, lanes, white, lane)
  {
    if y == [] {
      assert x + y == x;
    } else {
      assert (x + y)[..|x + y| - 1] == x + y[..|y| - 1];
      ChangeConcat(x, y[..|y| - 1], lanes, white, lane);
    }
  }

  lemma ChangeOne(d: Delta, lanes: nat, white: bool, lane: nat)
    requires Covers([d], lanes) && lane < lanes
    ensures Change([d], lanes, white, lane) == Signed(d, white, lane)
  {
    assert [d][..0] == [];
  }

  lemma ChangeWithout(ops: seq<Delta>, i: nat, lanes: nat, white: bool, lane: nat)
    requires Covers(ops, lanes) && lane < lanes && i < |ops|
    ensures Covers(ops[..i] + ops[i + 1..], lanes)
    ensures Change(ops, lanes, white, lane) == Change(ops[..i] + ops[i + 1..], lanes, white, lane) + Signed(ops[i], white, lane)
  {
    assert ops == ops[..i] + [ops[i]] + ops[i + 1..];
    ChangeConcat(ops[..i] + [ops[i]], ops[i + 1..], lanes, white, lane);
    ChangeConcat(ops[..i], [ops[i]], lanes, white, lane);
    ChangeConcat(ops[..i], ops[i + 1..], lanes, white, lane);
    ChangeOne(ops[i], lanes, white, lane);
  }

  /** The order inside a batch is arithmetically free. */
  lemma {:induction false} ChangeReorder(x: seq<Delta>, y: seq<Delta>, lanes: nat, white: bool, lane: nat)
    requires multiset(x) == multiset(y) && Covers(x, lanes) && lane < lanes
    ensures Covers(y, lanes) && Change(x, lanes, white, lane) == Change(y, lanes, white, lane)
    decreases |x|
  {
    SameElements(x, y);
    if x == [] {
      assert |y| == |multiset(y)| == 0;
    } else {
      var i := TakeLast(x, y);
      ChangeReorder(x[..|x| - 1], y[..i] + y[i + 1..], lanes, white, lane);
      ChangeWithout(y, i, lanes, white, lane);
    }
  }

  lemma SameElements(x: seq<Delta>, y: seq<Delta>)
    requires multiset(x) == multiset(y)
    ensures forall d :: d in y <==> d in x
  {
    assert forall d :: d in y <==> d in multiset(y);
    assert forall d :: d in x <==> d in multiset(x);
  }

  lemma TakeLast(x: seq<Delta>, y: seq<Delta>) returns (i: nat)
    requires multiset(x) == multiset(y) && x != []
    ensures i < |y| && y[i] == x[|x| - 1] && multiset(y[..i] + y[i + 1..]) == multiset(x[..|x| - 1])
  {
    var last := x[|x| - 1];
    assert last in multiset(y);
    i :| 0 <= i < |y| && y[i] == last;
    Without(y, i);
    Without(x, |x| - 1);
    assert x[..|x| - 1] + x[|x|..] == x[..|x| - 1];
  }

  lemma Without(s: seq<Delta>, i: nat)
    requires i < |s|
    ensures multiset(s[..i] + s[i + 1..]) == multiset(s) - multiset{s[i]}
  {
    assert s == s[..i] + [s[i]] + s[i + 1..];
  }

  /** `after` is `before` with a batch applied to every lane, modulo 2^16. */
  ghost predicate Applied(before: seq<int>, after: seq<int>, ops: seq<Delta>, white: bool) {
    && |after| == |before| && Covers(ops, |before|)
    && forall l :: 0 <= l < |before| ==> after[l] == Wrap16(before[l] + Change(ops, |before|, white, l))
  }

  predicate Int16(s: seq<int>) {
    forall l :: 0 <= l < |s| ==> -32768 <= s[l] < 32768
  }

  lemma AppliedNone(s: seq<int>, white: bool)
    requires Int16(s)
    ensures Applied(s, s, [], white)
  {
  }

  lemma AppliedThen(s: seq<int>, t: seq<int>, u: seq<int>, x: seq<Delta>, y: seq<Delta>, white: bool)
    requires Applied(s, t, x, white) && Applied(t, u, y, white)
    ensures Applied(s, u, x + y, white)
  {
    hide Wrap16, Change;
    forall l | 0 <= l < |s|
      ensures Covers(x + y, |s|) && u[l] == Wrap16(s[l] + Change(x + y, |s|, white, l))
    {
      ChangeConcat(x, y, |s|, white, l);
      WrapAdd(s[l] + Change(x, |s|, white, l), Change(y, |s|, white, l));
    }
  }

  lemma AppliedReordered(s: seq<int>, t: seq<int>, x: seq<Delta>, y: seq<Delta>, white: bool)
    requires Applied(s, t, x, white) && multiset(x) == multiset(y)
    ensures Applied(s, t, y, white)
  {
    hide Wrap16, Change;
    SameElements(x, y);
    forall l | 0 <= l < |s| ensures t[l] == Wrap16(s[l] + Change(y, |s|, white, l)) {
      ChangeReorder(x, y, |s|, white, l);
    }
  }

  // ---- the reference loop ----

  /** The scalar path of `apply`: each lane folds the whole batch, truncating at every step. */
  method ApplyScalar(accW: array<int>, accB: array<int>, ops: seq<Delta>)
    requires accW != accB && accW.Length == accB.Length && Covers(ops, accW.Length)
    requires Int16(accW[..]) && Int16(accB[..])
    modifies accW, accB
    ensures Applied(old(accW[..]), accW[..], ops, true) && Applied(old(accB[..]), accB[..], ops, false)
  {
    hide Wrap16, Change;
    var n := accW.Length;
    for i := 0 to n
      invariant forall l :: 0 <= l < i ==> accW[l] == Wrap16(old(accW[l]) + Change(ops, n, true, l))
      invariant forall l :: 0 <= l < i ==> accB[l] == Wrap16(old(accB[l]) + Change(ops, n, false, l))
      invariant forall l :: i <= l < n ==> accW[l] == old(accW[l]) && accB[l] == old(accB[l])
    {
      var wa := FoldLane(accW[i], ops, n, true, i);
      var ba := FoldLane(accB[i], ops, n, false, i);
      accW[i] := wa;
      accB[i] := ba;
    }
  }

  method FoldLane(x: int, ops: seq<Delta>, ghost lanes: nat, white: bool, lane: nat) returns (r: int)
    requires Covers(ops, lanes) && lane < lanes && -32768 <= x < 32768
    ensures r == Wrap16(x + Change(ops, lanes, white, lane))
  {
    r := x;
    for j := 0 to |ops|
      invariant r == Wrap16(x + Change(ops[..j], lanes, white, lane))
    {
      assert ops[..j + 1][..j] == ops[..j];
      var w := if white then ops[j].a[lane] else ops[j].b[lane];
      WrapAdd(x + Change(ops[..j], lanes, white, lane), if ops[j].add then w else -w);
      r := if ops[j].add then Wrap16(r + w) else Wrap16(r - w);
    }
    assert ops[..|ops|] == ops;
  }

  // ---- the board's kernels ----

  /** A lane zero-extended to 32 bits. */
  function Widen(x: int): int {
    x % 65536
  }

  /** 32-bit saturating arithmetic. */
  function Sat32(x: int): int {
    if x > 0x7FFF_FFFF then 0x7FFF_FFFF else if x < -0x8000_0000 then -0x8000_0000 else x
  }

  /** The low 16 bits of a widened lane, read as a signed value. */
  function Narrow(x: int): int {
    Wrap16(x)
  }

  function WidenedChange(ops: seq<Delta>, lanes: nat, white: bool, lane: nat): int
    requires Covers(ops, lanes) && lane < lanes
  {
    if ops == [] then 0
    else
      var d := ops[|ops| - 1];
      var w := Widen(if white then d.a[lane] else d.b[lane]);
      WidenedChange(ops[..|ops| - 1], lanes, white, lane) + (if d.add then w else -w)
  }

  lemma Congruent(x: int, y: int)
    requires (x - y) % 65536 == 0
    ensures Wrap16(x) == Wrap16(y)
  {
  }

  lemma WidenCongruent(w: int, p: int, q: int)
    requires (p - q) % 65536 == 0
    ensures 0 <= Widen(w) < 65536
    ensures (p + Widen(w) - (q + w)) % 65536 == 0 && (p - Widen(w) - (q - w)) % 65536 == 0
  {
  }

  lemma {:induction false} WidenedSum(x: int, ops: seq<Delta>, lanes: nat, white: bool, lane: nat)
    requires Covers(ops, lanes) && lane < lanes
    ensures -65535 * |ops| <= WidenedChange(ops, lanes, white, lane) <= 65535 * |ops|
    ensures (Widen(x) + WidenedChange(ops, lanes, white, lane) - (x + Change(ops, lanes, white, lane))) % 65536 == 0
  {
    if ops == [] {
    } else {
      WidenedSum(x, ops[..|ops| - 1], lanes, white, lane);
      var d, before := ops[|ops| - 1], ops[..|ops| - 1];
      WidenCongruent(if white then d.a[lane] else d.b[lane], Widen(x) + WidenedChange(before, lanes, white, lane),
                     x + Change(before, lanes, white, lane));
      hide Widen;
    }
  }

  /** A handful of widened rows never reaches the saturation bounds, and narrowing recovers the
      wrapped sum. */
  lemma WidenedIsExact(x: int, ops: seq<Delta>, lanes: nat, white: bool, lane: nat)
    requires Covers(ops, lanes) && lane < lanes && |ops| <= 1000
    ensures Sat32(Widen(x) + WidenedChange(ops, lanes, white, lane)) == Widen(x) + WidenedChange(ops, lanes, white, lane)
    ensures Narrow(Widen(x) + WidenedChange(ops, lanes, white, lane)) == Wrap16(x + Change(ops, lanes, white, lane))
  {
    WidenedSum(x, ops, lanes, white, lane);
    WidenCongruent(x, 0, 0);
    hide Widen, Wrap16;
    Congruent(Widen(x) + WidenedChange(ops, lanes, white, lane), x + Change(ops, lanes, white, lane));
  }

  /** One `pie_dual` kernel: every step of the list on both accumulators of each lane. */
  method PieDual(accW: array<int>, accB: array<int>, steps: seq<Delta>)
    requires accW != accB && accW.Length == accB.Length && Covers(steps, accW.Length) && |steps| <= 3
    modifies accW, accB
    ensures Applied(old(accW[..]), accW[..], steps, true) && Applied(old(accB[..]), accB[..], steps, false)
  {
    hide Wrap16, Change;
    var n := accW.Length;
    for i := 0 to n
      invariant forall l :: 0 <= l < i ==> accW[l] == Wrap16(old(accW[l]) + Change(steps, n, true, l))
      invariant forall l :: 0 <= l < i ==> accB[l] == Wrap16(old(accB[l]) + Change(steps, n, false, l))
      invariant forall l :: i <= l < n ==> accW[l] == old(accW[l]) && accB[l] == old(accB[l])
    {
      var wa := PieLane(accW[i], steps, n, true, i);
      var ba := PieLane(accB[i], steps, n, false, i);
      accW[i] := wa;
      accB[i] := ba;
    }
  }

  /** Zero-widen, add or subtract with saturation, narrow. */
  method PieLane(x: int, steps: seq<Delta>, ghost lanes: nat, white: bool, lane: nat) returns (r: int)
    requires Covers(steps, lanes) && lane < lanes && |steps| <= 3
    ensures r == Wrap16(x + Change(steps, lanes, white, lane))
  {
    var wide := Widen(x);
    for j := 0 to |steps|
      invariant wide == Widen(x) + WidenedChange(steps[..j], lanes, white, lane)
    {
      assert steps[..j + 1][..j] == steps[..j];
      var w := Widen(if white then steps[j].a[lane] else steps[j].b[lane]);
      WidenedIsExact(x, steps[..j + 1], lanes, white, lane);
      wide := if steps[j].add then Sat32(wide + w) else Sat32(wide - w);
    }
    assert steps[..|steps|] == steps;
    WidenedIsExact(x, steps, lanes, white, lane);
    r := Narrow(wide);
  }

  /** Drain a batch one kernel call at a time. */
  method DrainSingles(accW: array<int>, accB: array<int>, ops: seq<Delta>)
    requires accW != accB && accW.Length == accB.Length && Covers(ops, accW.Length)
    requires Int16(accW[..]) && Int16(accB[..])
    modifies accW, accB
    ensures Applied(old(accW[..]), accW[..], ops, true) && Applied(old(accB[..]), accB[..], ops, false)
  {
    AppliedNone(accW[..], true);
    AppliedNone(accB[..], false);
    for i := 0 to |ops|
      invariant Applied(old(accW[..]), accW[..], ops[..i], true) && Applied(old(accB[..]), accB[..], ops[..i], false)
    {
      hide Applied;
      ghost var w, b := accW[..], accB[..];
      PieDual(accW, accB, [ops[i]]);
      AppliedThen(old(accW[..]), w, accW[..], ops[..i], [ops[i]], true);
      AppliedThen(old(accB[..]), b, accB[..], ops[..i], [ops[i]], false);
      assert ops[..i + 1] == ops[..i] + [ops[i]];
    }
    assert ops[..|ops|] == ops;
  }

  /** Split a batch into its subtractions and its additions, in order. */
  method Partition(ops: seq<Delta>) returns (subs: seq<Delta>, adds: seq<Delta>)
    ensures multiset(subs + adds) == multiset(ops) && |subs| + |adds| == |ops|
    ensures (forall d :: d in subs ==> !d.add) && (forall d :: d in adds ==> d.add)
  {
    subs, adds := [], [];
    for i := 0 to |ops|
      invariant multiset(subs) + multiset(adds) == multiset(ops[..i]) && |subs| + |adds| == i
      invariant (forall d :: d in subs ==> !d.add) && (forall d :: d in adds ==> d.add)
    {
      assert ops[..i + 1] == ops[..i] + [ops[i]];
      if !ops[i].add {
        subs := subs + [ops[i]];
      } else {
        adds := adds + [ops[i]];
      }
    }
    assert ops[..|ops|] == ops;
  }

  /** Map up to four deltas onto the biggest fused kernel and a tail of single steps. */
  method ChooseShape(ops: seq<Delta>) returns (steps: seq<Delta>, rest: seq<Delta>)
    requires |ops| <= 4
    ensures multiset(steps + rest) == multiset(ops) && |steps| <= 3
  {
    var subs, adds := Partition(ops);
    if |subs| >= 2 && |adds| >= 1 {
      steps := [subs[0], subs[1], adds[0]];
      rest := (if |subs| == 3 then [subs[2]] else []) + (if |adds| >= 2 then [adds[1]] else []);
      if |subs| == 3 {
        ThreeSubs(subs, adds);
      } else {
        assert steps + rest == subs + adds;
      }
    } else if |subs| == 1 && |adds| >= 1 {
      steps, rest := [subs[0], adds[0]], adds[1..];
      assert steps + rest == subs + adds;
    } else if |subs| == 0 {
      steps, rest := [], adds;
      assert steps + rest == subs + adds;
    } else {
      steps, rest := [], subs;
      assert steps + rest == subs + adds;
    }
  }

  lemma ThreeSubs(subs: seq<Delta>, adds: seq<Delta>)
    requires |subs| == 3 && |adds| == 1
    ensures multiset([subs[0], subs[1], adds[0]] + ([subs[2]] + [])) == multiset(subs + adds)
  {
    assert subs == [subs[0], subs[1], subs[2]] && adds == [adds[0]];
  }

  /** The board's `apply`: big batches drain singly; up to four deltas map onto the fused shapes
      whatever their order. The result is the scalar one. */
  method ApplyShapes(accW: array<int>, accB: array<int>, ops: seq<Delta>)
    requires accW != accB && accW.Length == accB.Length && Covers(ops, accW.Length)
    requires Int16(accW[..]) && Int16(accB[..])
    modifies accW, accB
    ensures Applied(old(accW[..]), accW[..], ops, true) && Applied(old(accB[..]), accB[..], ops, false)
  {
    if |ops| > 4 {
      DrainSingles(accW, accB, ops);
      return;
    }
    var steps, rest := ChooseShape(ops);
    SameElements(steps + rest, ops);
    assert Covers(steps, accW.Length) && Covers(rest, accW.Length) by {
      assert forall d :: d in steps ==> d in steps + rest;
      assert forall d :: d in rest ==> d in steps + rest;
    }
    hide Applied, Int16, Covers;
    ghost var w0, b0 := accW[..], accB[..];
    AppliedNone(w0, true);
    AppliedNone(b0, false);
    if steps != [] {
      PieDual(accW, accB, steps);
    }
    ghost var w1, b1 := accW[..], accB[..];
    AppliedIsInt16(w0, w1, steps, true);
    AppliedIsInt16(b0, b1, steps, false);
    DrainSingles(accW, accB, rest);
    AppliedThen(w0, w1, accW[..], steps, rest, true);
    AppliedThen(b0, b1, accB[..], steps, rest, false);
    AppliedReordered(w0, accW[..], steps + rest, ops, true);
    AppliedReordered(b0, accB[..], steps + rest, ops, false);
  }

  lemma AppliedIsInt16(s: seq<int>, t: seq<int>, ops: seq<Delta>, white: bool)
    requires Applied(s, t, ops, white)
    ensures Int16(t)
  {
  }
}
