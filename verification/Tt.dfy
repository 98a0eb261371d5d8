/** The two-level transposition table: a main table of slot pairs and an optional small front
    cache, both matched by 16-bit tags. Every written slot carries, for the proofs only, the
    store it came from. */
module Tt {
  import opened Types
  import opened Arithmetic
  import opened Kernels

  type Hash = h: int | 0 <= h < 0x1_0000_0000_0000_0000

  /** Slot pairs of the front cache. */
  const FRONT_PAIRS: int := 8192

  /** Slots of the board's fallback table in internal memory. */
  const FALLBACK_SLOTS: int := 12288

  /** Word size of the index reduction, pairs in the main table, and whether the front cache exists. */
  datatype Config = Config(wide: bool, pairs: nat, front: bool) {
    function Base(): int {
      if wide then 0x1_0000_0000_0000_0000 else 0x1_0000_0000
    }
  }

  function Tag(h: Hash): int {
    h % 65536
  }

  function FastRange(word: int, p: int, base: int): int
    requires base > 0
  {
    word * p / base
  }

  function Index(cfg: Config, h: Hash, p: int): int {
    FastRange(h % cfg.Base(), p, cfg.Base())
  }

  lemma FastRangeBounds(word: int, p: int, base: int)
    requires 0 <= word < base && p > 0
    ensures 0 <= FastRange(word, p, base) < p
  {
    assert word * p <= (base - 1) * p;
    assert word * p < base * p;
    DivBelow(word * p, p, base);
  }

  lemma IndexBounds(cfg: Config, h: Hash, p: int)
    requires p > 0
    ensures 0 <= Index(cfg, h, p) < p
  {
    FastRangeBounds(h % cfg.Base(), p, cfg.Base());
  }

  // ---- slots ----

  datatype Entry = Entry(tag: int, score: int, depth: int, flags: int, move: int, age: int)

  const BLANK: Entry := Entry(0, 0, 0, 0, 0, 0)

  /** Which store wrote a slot: its full hash and its place in the log. */
  datatype Origin = Nobody | From(hash: Hash, number: nat)

  datatype Slot = Slot(entry: Entry, origin: Origin)

  /** Depth minus four times the relative age. */
  function Worth(e: Entry, gen: int): int {
    e.depth - 4 * ((gen - e.age) % 4)
  }

  /** `replace_slot`: a matching tag first, else the lower worth, the first on a tie. */
  function Victim(a: Entry, b: Entry, tag: int, gen: int): (v: int)
    ensures v == 0 || v == 1
    ensures a.tag == tag ==> v == 0
    ensures a.tag != tag && b.tag == tag ==> v == 1
  {
    if a.tag == tag then 0 else if b.tag == tag then 1
    else if Worth(b, gen) < Worth(a, gen) then 1 else 0
  }

  /** How many generations ago an entry was written, around the cycle of four. */
  function Age(e: Entry, gen: int): int {
    (gen - e.age) % 4
  }

  /** Of two entries of other positions: at equal depth the older goes, at equal age the shallower, and
      one generation weighs as much as four plies. */
  lemma VictimMeaning(a: Entry, b: Entry, tag: int, gen: int)
    requires a.tag != tag && b.tag != tag
    ensures a.depth == b.depth ==> (Victim(a, b, tag, gen) == 1 <==> Age(b, gen) > Age(a, gen))
    ensures Age(a, gen) == Age(b, gen) ==> (Victim(a, b, tag, gen) == 1 <==> b.depth < a.depth)
    ensures Age(b, gen) == Age(a, gen) + 1 ==> (Victim(a, b, tag, gen) == 1 <==> b.depth < a.depth + 4)
    ensures Age(a, gen) == Age(b, gen) + 1 ==> (Victim(a, b, tag, gen) == 1 <==> b.depth + 4 < a.depth)
  {
  }

  /** The first slot of pair `b` with this tag. */
  function Find(slots: seq<Slot>, b: nat, tag: int): Option<Slot>
    requires 2 * b + 1 < |slots|
  {
    if slots[2 * b].entry.tag == tag then Some(slots[2 * b])
    else if slots[2 * b + 1].entry.tag == tag then Some(slots[2 * b + 1])
    else None
  }

  function Place(slots: seq<Slot>, b: nat, tag: int, gen: int): (i: nat)
    requires 2 * b + 1 < |slots|
    ensures i / 2 == b && i < |slots|
  {
    2 * b + Victim(slots[2 * b].entry, slots[2 * b + 1].entry, tag, gen)
  }

  function PutIn(slots: seq<Slot>, b: nat, s: Slot, gen: int): (r: seq<Slot>)
    requires 2 * b + 1 < |slots|
    ensures |r| == |slots|
  {
    slots[Place(slots, b, s.entry.tag, gen) := s]
  }

  /** What a lookup of this tag finds right after a slot was put into the pair. */
  lemma PutThenFind(slots: seq<Slot>, b: nat, s: Slot, gen: int)
    requires 2 * b + 1 < |slots|
    ensures Find(PutIn(slots, b, s, gen), b, s.entry.tag) == Some(s)
    ensures Find(slots, b, s.entry.tag).Some? ==> slots[Place(slots, b, s.entry.tag, gen)] == Find(slots, b, s.entry.tag).value
    ensures Find(slots, b, s.entry.tag).None? ==> slots[Place(slots, b, s.entry.tag, gen)].entry.tag != s.entry.tag
  {
  }

  // ---- what a level keeps ----

  /** `s` is what the last store of its hash wrote. */
  ghost predicate Current(log: seq<Slot>, s: Slot) {
    && s.origin.From? && s.origin.number < |log| && log[s.origin.number] == s
    && forall j :: s.origin.number < j < |log| ==> log[j].origin.From? && log[j].origin.hash != s.origin.hash
  }

  ghost predicate Written(log: seq<Slot>, s: Slot) {
    match s.origin
    case Nobody => s.entry == BLANK
    case From(h, k) => k < |log| && log[k] == s && s.entry.tag == Tag(h)
  }

  /** One level: written slots copy the log, a written second slot never shares its tag with the
      first, and a slot in the pair of its own hash is current. */
  ghost predicate Level(cfg: Config, slots: seq<Slot>, p: nat, log: seq<Slot>) {
    && p > 0 && |slots| >= 2 * p
    && (forall i :: 0 <= i < |slots| ==> Written(log, slots[i]))
    && (forall b {:trigger slots[2 * b + 1]} :: 0 <= b < p ==> slots[2 * b + 1].origin.From? ==> slots[2 * b + 1].entry.tag != slots[2 * b].entry.tag)
    && (forall i :: 0 <= i < 2 * p && Home(cfg, slots[i], p, i / 2) ==> Current(log, slots[i]))
  }

  /** The slot's own hash belongs in pair `b`. */
  predicate Home(cfg: Config, s: Slot, p: nat, b: int) {
    s.origin.From? && Index(cfg, s.origin.hash, p) == b
  }

  ghost predicate AllHome(cfg: Config, slots: seq<Slot>, p: nat) {
    |slots| >= 2 * p && forall i :: 0 <= i < 2 * p && slots[i].origin.From? ==> Home(cfg, slots[i], p, i / 2)
  }

  /** A store leaves a level in order: the old entry of the same hash is the one replaced. */
  lemma StoreKeepsLevel(cfg: Config, slots: seq<Slot>, p: nat, log: seq<Slot>, s: Slot, gen: int)
    requires Level(cfg, slots, p, log) && s.origin.From? && s.origin.number == |log| && s.entry.tag == Tag(s.origin.hash)
    requires 0 <= Index(cfg, s.origin.hash, p) < p
    ensures Level(cfg, PutIn(slots, Index(cfg, s.origin.hash, p), s, gen), p, log + [s])
    ensures AllHome(cfg, slots, p) ==> AllHome(cfg, PutIn(slots, Index(cfg, s.origin.hash, p), s, gen), p)
  {
    hide Index, Tag;
    var b := Index(cfg, s.origin.hash, p);
    var after := PutIn(slots, b, s, gen);
    assert 2 * b + 1 < |slots| && 2 * p <= |slots|;
    forall i | 0 <= i < 2 * p && Home(cfg, after[i], p, i / 2) ensures Current(log + [s], after[i]) {
    }
  }

  /** A promotion leaves the front cache in order. */
  lemma PromoteKeepsLevel(cfg: Config, slots: seq<Slot>, p: nat, log: seq<Slot>, b: nat, s: Slot, gen: int)
    requires Level(cfg, slots, p, log) && b < p && Find(slots, b, s.entry.tag).None?
    requires Written(log, s) && (s.origin.From? ==> Current(log, s))
    ensures Level(cfg, PutIn(slots, b, s, gen), p, log)
    ensures AllHome(cfg, slots, p) && Home(cfg, s, p, b) ==> AllHome(cfg, PutIn(slots, b, s, gen), p)
  {
    hide Index, Tag, Current;
  }

  // ---- the two levels ----

  /** `main` is empty when its allocation failed; `front` is unused when the cache is absent. */
  datatype Tables = Tables(cfg: Config, main: seq<Slot>, front: seq<Slot>, gen: int, log: seq<Slot>)

  /** One store as its caller gives it; `move` is absent in the overload that keeps the old one. */
  datatype Request = Request(hash: Hash, flag: int, depth: int, score: int, move: Option<int>)

  predicate Sized(t: Tables) {
    t.main != [] ==>
      0 < t.cfg.pairs && 2 * t.cfg.pairs <= |t.main| && (t.cfg.front ==> |t.front| == 2 * FRONT_PAIRS)
  }

  function MainPair(t: Tables, h: Hash): (b: nat)
    requires Sized(t) && t.main != []
    ensures 2 * b + 1 < |t.main| && b < t.cfg.pairs
  {
    IndexBounds(t.cfg, h, t.cfg.pairs);
    Index(t.cfg, h, t.cfg.pairs)
  }

  function FrontPair(t: Tables, h: Hash): (b: nat)
    requires Sized(t) && t.main != [] && t.cfg.front
    ensures 2 * b + 1 < |t.front| && b < FRONT_PAIRS
  {
    IndexBounds(t.cfg, h, FRONT_PAIRS);
    Index(t.cfg, h, FRONT_PAIRS)
  }

  /** The entry a store writes, given the one it replaces: 16-bit score, 8-bit depth, and the
      replaced entry's move when none is given and the tags match. */
  function NewEntry(r: Request, gen: int, replaced: Entry): (e: Entry)
    ensures e.tag == Tag(r.hash)
  {
    Entry(Tag(r.hash), Wrap16(r.score), r.depth % 256, r.flag,
          if r.move.Some? then r.move.value else if replaced.tag == Tag(r.hash) then replaced.move else 0, gen)
  }

  function StoredSlot(t: Tables, r: Request): (s: Slot)
    requires Sized(t) && t.main != []
    ensures s.origin == From(r.hash, |t.log|) && s.entry.tag == Tag(r.hash)
  {
    var place := Place(t.main, MainPair(t, r.hash), Tag(r.hash), t.gen);
    Slot(NewEntry(r, t.gen, t.main[place].entry), From(r.hash, |t.log|))
  }

  /** `store`: into the main table, mirrored into the front cache. */
  function Stored(t: Tables, r: Request): (u: Tables)
    requires Sized(t)
    ensures Sized(u)
  {
    if t.main == [] then t
    else
      var s := StoredSlot(t, r);
      t.(main := PutIn(t.main, MainPair(t, r.hash), s, t.gen),
         front := if t.cfg.front then PutIn(t.front, FrontPair(t, r.hash), s, t.gen) else t.front,
         log := t.log + [s])
  }

  function FrontHit(t: Tables, h: Hash): Option<Slot>
    requires Sized(t) && t.main != []
  {
    if t.cfg.front then Find(t.front, FrontPair(t, h), Tag(h)) else None
  }

  function MainHit(t: Tables, h: Hash): Option<Slot>
    requires Sized(t) && t.main != []
  {
    Find(t.main, MainPair(t, h), Tag(h))
  }

  /** What `lookup` returns. */
  function Hit(t: Tables, h: Hash): Option<Slot>
    requires Sized(t)
  {
    if t.main == [] then None else if FrontHit(t, h).Some? then FrontHit(t, h) else MainHit(t, h)
  }

  /** What `lookup` leaves behind: a hit in the main table is promoted. */
  function Looked(t: Tables, h: Hash): (u: Tables)
    requires Sized(t)
    ensures Sized(u)
  {
    if t.main != [] && FrontHit(t, h).None? && MainHit(t, h).Some? && t.cfg.front then
      t.(front := PutIn(t.front, FrontPair(t, h), MainHit(t, h).value, t.gen))
    else t
  }

  /** `new_search`: generations 1, 2, 3 in turn. */
  function NextGeneration(gen: int): int {
    if (gen + 1) % 4 == 0 then 1 else (gen + 1) % 4
  }

  function Blank(n: nat): (r: seq<Slot>)
    ensures |r| == n && forall i :: 0 <= i < n ==> r[i] == Slot(BLANK, Nobody)
  {
    seq(n, _ => Slot(BLANK, Nobody))
  }

  /** `reset`: both levels zeroed, the generation kept. Nothing stored before counts any more. */
  function Cleared(t: Tables): (u: Tables)
    ensures Sized(t) ==> Sized(u)
  {
    if t.main == [] then t else t.(main := Blank(|t.main|), front := Blank(|t.front|), log := [])
  }

  ghost predicate Ordered(t: Tables) {
    && Sized(t) && 1 <= t.gen <= 3
    && (t.main != [] ==>
          && Level(t.cfg, t.main, t.cfg.pairs, t.log) && AllHome(t.cfg, t.main, t.cfg.pairs)
          && (t.cfg.front ==> Level(t.cfg, t.front, FRONT_PAIRS, t.log)))
  }

  // ---- every operation keeps the order ----

  lemma StoreKeepsOrder(t: Tables, r: Request)
    requires Ordered(t)
    ensures Ordered(Stored(t, r))
    ensures t.main != [] && t.cfg.front && AllHome(t.cfg, t.front, FRONT_PAIRS) ==> AllHome(t.cfg, Stored(t, r).front, FRONT_PAIRS)
  {
    if t.main != [] {
      var s, b := StoredSlot(t, r), MainPair(t, r.hash);
      hide Index, Tag, Level, AllHome, PutIn, NewEntry, StoredSlot;
      StoreKeepsLevel(t.cfg, t.main, t.cfg.pairs, t.log, s, t.gen);
      if t.cfg.front {
        var f := FrontPair(t, r.hash);
        StoreKeepsLevel(t.cfg, t.front, FRONT_PAIRS, t.log, s, t.gen);
      }
    }
  }

  /** A hit has the tag asked for, and is a copy of a store or a blank slot. */
  lemma FindInLevel(cfg: Config, slots: seq<Slot>, p: nat, log: seq<Slot>, b: nat, tag: int)
    requires Level(cfg, slots, p, log) && b < p && Find(slots, b, tag).Some?
    ensures Find(slots, b, tag).value.entry.tag == tag && Written(log, Find(slots, b, tag).value)
    ensures Home(cfg, Find(slots, b, tag).value, p, b) ==> Current(log, Find(slots, b, tag).value)
    ensures AllHome(cfg, slots, p) && Find(slots, b, tag).value.origin.From? ==> Home(cfg, Find(slots, b, tag).value, p, b)
  {
    hide Index, Current;
    assert slots[2 * b] == slots[2 * b] && slots[2 * b + 1] == slots[2 * b + 1] && 2 * b / 2 == b && (2 * b + 1) / 2 == b;
  }

  lemma LookKeepsOrder(t: Tables, h: Hash)
    requires Ordered(t)
    ensures Ordered(Looked(t, h))
  {
    if t.main != [] && FrontHit(t, h).None? && MainHit(t, h).Some? && t.cfg.front {
      var s := MainHit(t, h).value;
      var b, f := MainPair(t, h), FrontPair(t, h);
      hide Index, Tag, Level, AllHome, PutIn;
      FindInLevel(t.cfg, t.main, t.cfg.pairs, t.log, b, Tag(h));
      PromoteKeepsLevel(t.cfg, t.front, FRONT_PAIRS, t.log, f, s, t.gen);
    }
  }

  lemma ClearKeepsOrder(t: Tables)
    requires Ordered(t)
    ensures Ordered(Cleared(t)) && (t.main != [] && t.cfg.front ==> AllHome(t.cfg, Cleared(t).front, FRONT_PAIRS))
  {
    hide Index;
  }

  // ---- lookup after store ----

  /** A lookup right after a store returns that store: its score, depth and flag as stored, and
      its move, which is the one a lookup would have returned from the main table before when the
      store gave none. */
  lemma LookupAfterStore(t: Tables, r: Request)
    requires Ordered(t) && t.main != []
    ensures
      var hit := Hit(Stored(t, r), r.hash);
      && hit.Some? && hit.value.origin == From(r.hash, |t.log|)
      && hit.value.entry.score == Wrap16(r.score) && hit.value.entry.depth == r.depth % 256
      && hit.value.entry.flags == r.flag && hit.value.entry.age == t.gen
      && hit.value.entry.move ==
         if r.move.Some? then r.move.value else if MainHit(t, r.hash).Some? then MainHit(t, r.hash).value.entry.move else 0
  {
    var s, b := StoredSlot(t, r), MainPair(t, r.hash);
    hide Index, Tag, Level, AllHome, Wrap16;
    PutThenFind(t.main, b, s, t.gen);
    if t.cfg.front {
      PutThenFind(t.front, FrontPair(t, r.hash), s, t.gen);
    }
  }

  /** A lookup changes no answer for its hash; after it the front cache, if there is one, gives it. */
  lemma LookupPromotes(t: Tables, h: Hash)
    requires Sized(t) && t.main != []
    ensures Hit(Looked(t, h), h) == Hit(t, h) && Looked(t, h).main == t.main && Looked(t, h).log == t.log
    ensures t.cfg.front && Hit(t, h).Some? ==> FrontHit(Looked(t, h), h) == Hit(t, h)
  {
    hide Index, Tag;
    if t.cfg.front && FrontHit(t, h).None? && MainHit(t, h).Some? {
      PutThenFind(t.front, FrontPair(t, h), MainHit(t, h).value, t.gen);
    }
  }

  /** A store writes one slot of each level, in the pair of its hash, and the front cache answers for it. */
  lemma StoreTouchesOne(t: Tables, r: Request)
    requires Sized(t) && t.main != []
    ensures forall i :: 0 <= i < |t.main| && i / 2 != MainPair(t, r.hash) ==> Stored(t, r).main[i] == t.main[i]
    ensures t.cfg.front ==> forall i :: 0 <= i < |t.front| && i / 2 != FrontPair(t, r.hash) ==> Stored(t, r).front[i] == t.front[i]
    ensures !t.cfg.front ==> Stored(t, r).front == t.front
    ensures t.cfg.front ==> FrontHit(Stored(t, r), r.hash).Some? && FrontHit(Stored(t, r), r.hash).value.origin == From(r.hash, |t.log|)
    ensures MainHit(Stored(t, r), r.hash).Some? && MainHit(Stored(t, r), r.hash).value.origin == From(r.hash, |t.log|)
  {
    var s := StoredSlot(t, r);
    hide Index, Tag;
    PutThenFind(t.main, MainPair(t, r.hash), s, t.gen);
    if t.cfg.front {
      PutThenFind(t.front, FrontPair(t, r.hash), s, t.gen);
    }
  }

  // ---- is a hit ever out of date ----

  /** A hit that came from a store of the very hash asked for is always that hash's last store. */
  lemma OwnHitIsCurrent(t: Tables, h: Hash)
    requires Ordered(t) && Hit(t, h).Some? && Hit(t, h).value.origin.From? && Hit(t, h).value.origin.hash == h
    ensures Current(t.log, Hit(t, h).value)
  {
    hide Index, Tag, Level, AllHome, Current;
    if FrontHit(t, h).Some? {
      FindInLevel(t.cfg, t.front, FRONT_PAIRS, t.log, FrontPair(t, h), Tag(h));
    } else {
      FindInLevel(t.cfg, t.main, t.cfg.pairs, t.log, MainPair(t, h), Tag(h));
    }
  }

  /** The main pair and the tag fix the front pair. */
  ghost predicate Refines(cfg: Config) {
    forall g: Hash, h: Hash :: Together(cfg, g, h) ==> Index(cfg, g, FRONT_PAIRS) == Index(cfg, h, FRONT_PAIRS)
  }

  predicate Together(cfg: Config, g: Hash, h: Hash) {
    Tag(g) == Tag(h) && Index(cfg, g, cfg.pairs) == Index(cfg, h, cfg.pairs)
  }

  /** Every slot of the front cache is in the pair of its own hash. */
  ghost predicate Tidy(t: Tables) {
    Ordered(t) && (t.main != [] && t.cfg.front ==> AllHome(t.cfg, t.front, FRONT_PAIRS))
  }

  lemma LookKeepsTidy(t: Tables, h: Hash)
    requires Tidy(t) && Refines(t.cfg)
    ensures Tidy(Looked(t, h))
  {
    LookKeepsOrder(t, h);
    if t.main != [] && FrontHit(t, h).None? && MainHit(t, h).Some? && t.cfg.front {
      var s := MainHit(t, h).value;
      var f := FrontPair(t, h);
      hide Index, Tag, Level, PutIn;
      FindInLevel(t.cfg, t.main, t.cfg.pairs, t.log, MainPair(t, h), Tag(h));
      if s.origin.From? {
        assert Together(t.cfg, s.origin.hash, h);
      }
      PromoteKeepsHome(t, f, s);
    }
  }

  lemma PromoteKeepsHome(t: Tables, f: nat, s: Slot)
    requires Sized(t) && t.main != [] && t.cfg.front && f < FRONT_PAIRS
    requires AllHome(t.cfg, t.front, FRONT_PAIRS) && (s.origin.From? ==> Home(t.cfg, s, FRONT_PAIRS, f))
    ensures AllHome(t.cfg, PutIn(t.front, f, s, t.gen), FRONT_PAIRS)
  {
    hide Index;
  }

  /** In a tidy table every hit is the last store of the hash that wrote it. */
  lemma TidyHitIsCurrent(t: Tables, h: Hash)
    requires Tidy(t) && Hit(t, h).Some? && Hit(t, h).value.origin.From?
    ensures Current(t.log, Hit(t, h).value)
  {
    hide Index, Tag, Level, AllHome, Current;
    if FrontHit(t, h).Some? {
      FindInLevel(t.cfg, t.front, FRONT_PAIRS, t.log, FrontPair(t, h), Tag(h));
    } else {
      FindInLevel(t.cfg, t.main, t.cfg.pairs, t.log, MainPair(t, h), Tag(h));
    }
  }

  // ---- runs ----

  datatype Action = Put(r: Request) | Look(h: Hash) | NewSearch | Reset

  function Act(t: Tables, a: Action): (u: Tables)
    requires Sized(t)
    ensures Sized(u)
  {
    match a
    case Put(r) => Stored(t, r)
    case Look(h) => Looked(t, h)
    case NewSearch => t.(gen := NextGeneration(t.gen))
    case Reset => Cleared(t)
  }

  function Acts(t: Tables, actions: seq<Action>): (u: Tables)
    requires Sized(t)
    ensures Sized(u)
  {
    if actions == [] then t else Act(Acts(t, actions[..|actions| - 1]), actions[|actions| - 1])
  }

  /** A newly allocated table of `n` slots. */
  function Fresh(cfg: Config, n: nat): (t: Tables)
    requires cfg.pairs == n / 2 && n >= 2
    ensures Sized(t) && t.main != []
  {
    Tables(cfg, Blank(n), if cfg.front then Blank(2 * FRONT_PAIRS) else [], 1, [])
  }

  lemma {:induction false} RunIsOrdered(cfg: Config, n: nat, actions: seq<Action>)
    requires cfg.pairs == n / 2 && n >= 2
    ensures Ordered(Acts(Fresh(cfg, n), actions)) && Acts(Fresh(cfg, n), actions).cfg == cfg
    ensures Refines(cfg) || !cfg.front ==> Tidy(Acts(Fresh(cfg, n), actions))
    ensures Acts(Fresh(cfg, n), actions).main != []
  {
    var t0 := Fresh(cfg, n);
    if actions == [] {
      FreshIsTidy(cfg, n);
    } else {
      var last := |actions| - 1;
      RunIsOrdered(cfg, n, actions[..last]);
      hide Level, AllHome, Refines, Index, Stored, Looked, Fresh;
      StepKeepsOrder(Acts(t0, actions[..last]), actions[last]);
    }
  }

  lemma FreshIsTidy(cfg: Config, n: nat)
    requires cfg.pairs == n / 2 && n >= 2
    ensures Tidy(Fresh(cfg, n))
  {
    hide Index;
  }

  lemma StepKeepsOrder(t: Tables, a: Action)
    requires Ordered(t)
    ensures Ordered(Act(t, a)) && Act(t, a).cfg == t.cfg && (t.main != [] ==> Act(t, a).main != [])
    ensures Tidy(t) && (Refines(t.cfg) || !t.cfg.front) ==> Tidy(Act(t, a))
  {
    hide Level, AllHome, Refines, Index, PutIn, FrontHit, MainHit, StoredSlot;
    match a {
      case Put(r) => StoreKeepsOrder(t, r);
      case Look(h) =>
        LookKeepsOrder(t, h);
        if Tidy(t) && Refines(t.cfg) {
          LookKeepsTidy(t, h);
        }
      case NewSearch =>
      case Reset => ClearKeepsOrder(t);
    }
  }

  /** No run leads to a lookup that returns a superseded entry. */
  ghost predicate NeverStale(cfg: Config, n: nat)
    requires cfg.pairs == n / 2 && n >= 2
  {
    forall actions: seq<Action>, h: Hash :: UpToDate(Acts(Fresh(cfg, n), actions), h)
  }

  ghost predicate UpToDate(t: Tables, h: Hash)
    requires Sized(t)
  {
    Hit(t, h).Some? && Hit(t, h).value.origin.From? ==> Current(t.log, Hit(t, h).value)
  }

  /** Two hashes that share main pair and tag, but not the front pair. */
  predicate Split(cfg: Config, g: Hash, h: Hash) {
    Together(cfg, g, h) && Index(cfg, g, FRONT_PAIRS) != Index(cfg, h, FRONT_PAIRS)
  }

  /** A store of one is invisible to the other's front pair, but not to its main pair. */
  lemma StoreAcross(t: Tables, g: Hash, h: Hash, r: Request)
    requires Sized(t) && t.main != [] && t.cfg.front && r.hash == h && Split(t.cfg, g, h)
    ensures FrontHit(Stored(t, r), g) == FrontHit(t, g) && MainHit(Stored(t, r), g) == Some(StoredSlot(t, r))
  {
    var s := StoredSlot(t, r);
    PutThenFind(t.main, MainPair(t, h), s, t.gen);
    hide Index, Tag, NewEntry, Victim, StoredSlot;
  }

  lemma Promoted(t: Tables, g: Hash, s: Slot)
    requires Sized(t) && t.main != [] && t.cfg.front && FrontHit(t, g).None? && MainHit(t, g) == Some(s)
    ensures FrontHit(Looked(t, g), g) == Some(s) && Looked(t, g).log == t.log
  {
    hide Index, Tag;
    PutThenFind(t.front, FrontPair(t, g), s, t.gen);
  }

  /** Such a pair leaves a stale copy behind: store one, look up the other, store the first again. */
  lemma StaleCopy(t: Tables, g: Hash, h: Hash, r: Request)
    requires Sized(t) && t.main != [] && t.cfg.front && r.hash == h && Split(t.cfg, g, h) && FrontHit(t, g).None?
    ensures !UpToDate(Stored(Looked(Stored(t, r), g), r), g)
  {
    var t1, s := Stored(t, r), StoredSlot(t, r);
    StoreAcross(t, g, h, r);
    Promoted(t1, g, s);
    var t2 := Looked(t1, g);
    StoreAcross(t2, g, h, r);
    hide Split, FrontHit, MainHit, Current, StoredSlot, PutIn;
    assert Stored(t2, r).log == t.log + [s, StoredSlot(t2, r)];
    NotCurrent(t.log, s, StoredSlot(t2, r));
  }

  lemma NotCurrent(log: seq<Slot>, s: Slot, later: Slot)
    requires later.origin.From? && s.origin == From(later.origin.hash, |log|)
    ensures !Current(log + [s, later], s)
  {
    assert (log + [s, later])[|log| + 1] == later;
  }

  // ---- exactly when ----

  /** Hashes of one front pair, in one word of the reduction. */
  function FrontCell(cfg: Config): int {
    if cfg.wide then 0x8_0000_0000_0000 else 0x8_0000
  }

  /** A hash of front pair `b` with a small tag. */
  function InFrontPair(cfg: Config, b: nat, tag: nat): Hash
    requires b < FRONT_PAIRS && tag < 65536
  {
    b * FrontCell(cfg) + tag
  }

  lemma InFrontPairIs(cfg: Config, b: nat, tag: nat)
    requires b < FRONT_PAIRS && tag < 65536
    ensures Tag(InFrontPair(cfg, b, tag)) == tag && Index(cfg, InFrontPair(cfg, b, tag), FRONT_PAIRS) == b
  {
    FrontTagIs(cfg, b, tag);
    FrontIndexIs(cfg, b, tag);
    hide *;
  }

  lemma FrontTagIs(cfg: Config, b: nat, tag: nat)
    requires b < FRONT_PAIRS && tag < 65536
    ensures Tag(InFrontPair(cfg, b, tag)) == tag
  {
    var cells := if cfg.wide then 0x8_0000_0000 else 8;
    assert InFrontPair(cfg, b, tag) == b * cells * 65536 + tag;
    DivUnique(b * cells, tag, 65536);
  }

  lemma FrontIndexIs(cfg: Config, b: nat, tag: nat)
    requires b < FRONT_PAIRS && tag < 65536
    ensures Index(cfg, InFrontPair(cfg, b, tag), FRONT_PAIRS) == b
  {
    var h := InFrontPair(cfg, b, tag);
    assert h % cfg.Base() == h by {
      DivUnique(0, h, cfg.Base());
    }
    DivUnique(b, tag * FRONT_PAIRS, cfg.Base());
  }

  function Filler(h: Hash): Request {
    Request(h, 1, 0, 0, None)
  }

  /** Two stores fill a blank front pair, so that no blank slot answers for tag zero. */
  lemma FillFrontPair(cfg: Config, n: nat, g: Hash)
    requires cfg.pairs == n / 2 && n >= 2 && cfg.front && Tag(g) == 0
    ensures
      var b := FrontPair(Fresh(cfg, n), g);
      FrontHit(Stored(Stored(Fresh(cfg, n), Filler(InFrontPair(cfg, b, 1))), Filler(InFrontPair(cfg, b, 2))), g).None?
  {
    var t := Fresh(cfg, n);
    var b := FrontPair(t, g);
    InFrontPairIs(cfg, b, 1);
    InFrontPairIs(cfg, b, 2);
    hide Index, Tag, Wrap16, Fresh, InFrontPair;
    var t1 := Stored(t, Filler(InFrontPair(cfg, b, 1)));
    FirstFill(t, b, StoredSlot(t, Filler(InFrontPair(cfg, b, 1))));
    SecondFill(t1, b, StoredSlot(t1, Filler(InFrontPair(cfg, b, 2))));
  }

  lemma FirstFill(t: Tables, b: nat, s: Slot)
    requires 2 * b + 1 < |t.front| && t.front[2 * b].entry == BLANK && t.front[2 * b + 1].entry == BLANK && s.entry.tag != 0
    ensures PutIn(t.front, b, s, t.gen) == t.front[2 * b := s]
  {
  }

  lemma SecondFill(t: Tables, b: nat, s: Slot)
    requires 2 * b + 1 < |t.front| && t.front[2 * b + 1].entry == BLANK && s.entry.tag != 0 && s.entry.tag != t.front[2 * b].entry.tag
    requires t.gen == 1 && t.front[2 * b].entry.age == 1 && t.front[2 * b].entry.depth == 0
    ensures PutIn(t.front, b, s, t.gen) == t.front[2 * b + 1 := s]
  {
  }

  lemma ActsThen(t: Tables, actions: seq<Action>, a: Action)
    requires Sized(t)
    ensures Acts(t, actions + [a]) == Act(Acts(t, actions), a)
  {
    assert (actions + [a])[..|actions|] == actions;
  }

  /** A run after which the front cache does not answer for `g`. */
  lemma FrontMisses(cfg: Config, n: nat, g: Hash) returns (actions: seq<Action>)
    requires cfg.pairs == n / 2 && n >= 2 && cfg.front
    ensures
      var t := Acts(Fresh(cfg, n), actions);
      t.cfg == cfg && t.main != [] && FrontHit(t, g).None?
  {
    var t0 := Fresh(cfg, n);
    actions := [];
    if Tag(g) == 0 {
      var b := FrontPair(t0, g);
      FillFrontPair(cfg, n, g);
      var x, y := Put(Filler(InFrontPair(cfg, b, 1))), Put(Filler(InFrontPair(cfg, b, 2)));
      ActsThen(t0, [], x);
      ActsThen(t0, [x], y);
      actions := [x] + [y];
    }
  }

  /** A run in which a lookup of `g` returns a superseded entry. */
  lemma StaleRun(cfg: Config, n: nat, g: Hash, h: Hash) returns (actions: seq<Action>)
    requires cfg.pairs == n / 2 && n >= 2 && cfg.front && Split(cfg, g, h)
    ensures !UpToDate(Acts(Fresh(cfg, n), actions), g)
  {
    hide Index, Tag, Split, Fresh, FrontHit, MainHit, UpToDate, StoredSlot;
    actions := FrontMisses(cfg, n, g);
    var t0 := Fresh(cfg, n);
    var t := Acts(t0, actions);
    var r := Filler(h);
    StaleCopy(t, g, h, r);
    ActsThen(t0, actions, Put(r));
    ActsThen(t0, actions + [Put(r)], Look(g));
    ActsThen(t0, actions + [Put(r)] + [Look(g)], Put(r));
    actions := actions + [Put(r)] + [Look(g)] + [Put(r)];
  }

  /** With a front cache, no run ever returns a superseded entry exactly when sharing the main
      pair and the tag implies sharing the front pair. */
  lemma NeverStaleIfRefined(cfg: Config, n: nat)
    requires cfg.pairs == n / 2 && n >= 2
    ensures NeverStale(cfg, n) <==> !cfg.front || Refines(cfg)
  {
    hide Index, Tag, Fresh, UpToDate, Acts;
    if !cfg.front || Refines(cfg) {
      forall actions: seq<Action>, h: Hash ensures UpToDate(Acts(Fresh(cfg, n), actions), h) {
        RunIsOrdered(cfg, n, actions);
        TidyIsUpToDate(Acts(Fresh(cfg, n), actions), h);
      }
    } else {
      var g: Hash, h: Hash :| Together(cfg, g, h) && Index(cfg, g, FRONT_PAIRS) != Index(cfg, h, FRONT_PAIRS);
      var actions := StaleRun(cfg, n, g, h);
      assert !UpToDate(Acts(Fresh(cfg, n), actions), g);
    }
  }

  lemma TidyIsUpToDate(t: Tables, h: Hash)
    requires Tidy(t)
    ensures UpToDate(t, h)
  {
    hide Index, Level, AllHome, Hit, Current;
    if Hit(t, h).Some? && Hit(t, h).value.origin.From? {
      TidyHitIsCurrent(t, h);
    }
  }

  /** A main table whose pairs are a multiple of the front cache's refines it. */
  lemma MultipleRefines(cfg: Config, k: nat)
    requires k > 0 && cfg.pairs == k * FRONT_PAIRS
    ensures Refines(cfg)
  {
    forall g: Hash, h: Hash | Together(cfg, g, h) ensures Index(cfg, g, FRONT_PAIRS) == Index(cfg, h, FRONT_PAIRS) {
      Coarser(g % cfg.Base(), k, cfg.Base());
      Coarser(h % cfg.Base(), k, cfg.Base());
    }
  }

  lemma Coarser(x: int, k: int, base: int)
    requires 0 <= x < base && k > 0
    ensures FastRange(x, k * FRONT_PAIRS, base) / k == FastRange(x, FRONT_PAIRS, base)
  {
    var y := x * FRONT_PAIRS;
    var q, r := y / base, y % base;
    assert y == q * base + r;
    assert x * (k * FRONT_PAIRS) == y * k;
    assert y * k == (q * k) * base + r * k;
    assert 0 <= r * k < base * k;
    DivBelow(r * k, k, base);
    var e := r * k / base;
    assert r * k == e * base + r * k % base;
    assert y * k == (q * k + e) * base + r * k % base;
    DivUnique(q * k + e, r * k % base, base);
    DivUnique(q, e, k);
  }

  /** Few pairs: some hash on each side of the first front boundary shares main pair and tag with
      the other. `c` is the front cell, `f` what the pairs leave over. */
  lemma BoundaryWindow(c: int, p: int, q: int, f: int) returns (s: int)
    requires p == q * FRONT_PAIRS + f && 0 < f < FRONT_PAIRS && 0 < p && 8 * p < c
    ensures 1 <= s <= 65536 && 0 <= c * f - s * p && c * f + (65536 - s) * p < c * FRONT_PAIRS
  {
    var a := f * c;
    MulMono(f, FRONT_PAIRS - 1, c);
    MulMono(1, f, c);
    DivAtLeast(a, p, 1);
    s := a / p;
    if s >= 65536 {
      MulMono(65536, s, p);
      s := 65536;
    } else {
      NarrowWindow(c, p, f, a, s);
    }
  }

  lemma DivAtLeast(a: int, p: int, k: int)
    requires p > 0 && a >= k * p
    ensures a / p >= k && a == (a / p) * p + a % p
  {
    if a / p < k {
      MulMono(a / p, k - 1, p);
    }
  }

  lemma NarrowWindow(c: int, p: int, f: int, a: int, s: int)
    requires 0 < f < FRONT_PAIRS && 0 < p && 8 * p < c && a == f * c && s == a / p && a == s * p + a % p
    ensures a - s * p >= 0 && a + (65536 - s) * p < c * FRONT_PAIRS
  {
    var rest, left := c - 8 * p, a % p;
    assert f * c == (8 * f) * p + f * rest;
    RemainderSmall(a, 8 * f, f * rest, p);
    MulMono(f, FRONT_PAIRS - 1, rest);
    WindowEnd(c, p, a, s, left);
  }

  lemma WindowEnd(c: int, p: int, a: int, s: int, left: int)
    requires a == s * p + left && 0 <= left <= (FRONT_PAIRS - 1) * (c - 8 * p) && 0 < p && 8 * p < c
    ensures a - s * p >= 0 && a + (65536 - s) * p < c * FRONT_PAIRS
  {
    assert (65536 - s) * p == 65536 * p - s * p;
  }

  lemma RemainderSmall(a: int, k: int, r: int, p: int)
    requires a == k * p + r && r >= 0 && p > 0
    ensures a % p <= r
  {
    assert r == (r / p) * p + r % p;
    assert a == (k + r / p) * p + r % p by {
      assert (k + r / p) * p == k * p + (r / p) * p;
    }
    DivUnique(k + r / p, r % p, p);
    MulMono(0, r / p, p);
  }

  /** A word below the base is its own remainder. */
  lemma IndexOfSmall(cfg: Config, h: Hash, p: int, q: int, r: int)
    requires h < cfg.Base() && h * p == q * cfg.Base() + r && 0 <= r < cfg.Base()
    ensures Index(cfg, h, p) == q
  {
    DivUnique(0, h, cfg.Base());
    DivUnique(q, r, cfg.Base());
  }

  lemma SplitBelow(cfg: Config) returns (g: Hash, h: Hash)
    requires 0 < cfg.pairs && cfg.pairs % FRONT_PAIRS != 0 && cfg.pairs * 65536 < cfg.Base()
    ensures Split(cfg, g, h)
  {
    var c, p := FrontCell(cfg), cfg.pairs;
    var q, f := p / FRONT_PAIRS, p % FRONT_PAIRS;
    var s := BoundaryWindow(c, p, q, f);
    g, h := c - s, c - s + 65536;
    WindowIndices(cfg, c, p, q, f, s, g, h);
    SameTag(g);
    hide Index, Tag;
  }

  lemma SameTag(x: int)
    ensures (x + 65536) % 65536 == x % 65536
  {
  }

  lemma WindowIndices(cfg: Config, c: int, p: int, q: int, f: int, s: int, g: Hash, h: Hash)
    requires cfg.Base() == c * FRONT_PAIRS && c >= 65536 && p == q * FRONT_PAIRS + f && 1 <= s <= 65536
    requires 0 <= c * f - s * p && c * f + (65536 - s) * p < c * FRONT_PAIRS && 0 <= p
    requires g == c - s && h == c - s + 65536
    ensures Index(cfg, g, p) == q == Index(cfg, h, p) && Index(cfg, g, FRONT_PAIRS) == 0 && Index(cfg, h, FRONT_PAIRS) == 1
  {
    hide Index;
    Expand(c, s, p, q, f);
    Expand(c, s - 65536, p, q, f);
    MulMono(0, 65536 - s, p);
    IndexOfSmall(cfg, g, p, q, c * f - s * p);
    IndexOfSmall(cfg, h, p, q, c * f + (65536 - s) * p);
    IndexOfSmall(cfg, g, FRONT_PAIRS, 0, g * FRONT_PAIRS);
    IndexOfSmall(cfg, h, FRONT_PAIRS, 1, (65536 - s) * FRONT_PAIRS);
  }

  lemma Expand(c: int, s: int, p: int, q: int, f: int)
    requires p == q * FRONT_PAIRS + f
    ensures (c - s) * p == q * (c * FRONT_PAIRS) + (c * f - s * p)
  {
    assert (c - s) * p == c * p - s * p;
    assert c * p == c * (q * FRONT_PAIRS) + c * f;
    assert c * (q * FRONT_PAIRS) == q * (c * FRONT_PAIRS);
  }

  /** So many pairs that no two hashes share both pair and tag. */
  lemma ManyPairsRefine(cfg: Config)
    requires cfg.pairs * 65536 >= cfg.Base()
    ensures Refines(cfg)
  {
    forall g: Hash, h: Hash | Together(cfg, g, h) ensures Index(cfg, g, FRONT_PAIRS) == Index(cfg, h, FRONT_PAIRS) {
      SameWord(cfg, g, h);
    }
  }

  lemma SameWord(cfg: Config, g: Hash, h: Hash)
    requires cfg.pairs * 65536 >= cfg.Base() && Together(cfg, g, h)
    ensures g % cfg.Base() == h % cfg.Base()
  {
    var b := cfg.Base();
    var x, y := g % b, h % b;
    TagOfWord(cfg, g);
    TagOfWord(cfg, h);
    if x > y {
      FarApart(x, y, cfg.pairs, b);
    } else if y > x {
      FarApart(y, x, cfg.pairs, b);
    }
  }

  lemma TagOfWord(cfg: Config, h: Hash)
    ensures (h % cfg.Base()) % 65536 == Tag(h)
  {
    var q, x := h / cfg.Base(), h % cfg.Base();
    DivUnique(cfg.Base() / 65536 * q + x / 65536, x % 65536, 65536);
  }

  lemma FarApart(x: int, y: int, p: int, b: int)
    requires 0 <= y < x && x % 65536 == y % 65536 && p * 65536 >= b > 0
    ensures x * p / b > y * p / b
  {
    assert x - y >= 65536;
    MulMono(y + 65536, x, p);
    assert (y + 65536) * p == y * p + 65536 * p;
    var q := y * p / b;
    assert y * p == q * b + y * p % b;
    assert x * p == (x * p / b) * b + x * p % b;
    if x * p / b <= q {
      MulMono(x * p / b, q, b);
    }
  }

  /** The condition in numbers. */
  lemma RefinesExactly(cfg: Config)
    requires cfg.pairs > 0
    ensures Refines(cfg) <==> cfg.pairs % FRONT_PAIRS == 0 || cfg.pairs * 65536 >= cfg.Base()
  {
    hide Index, Tag;
    if cfg.pairs % FRONT_PAIRS == 0 {
      MultipleRefines(cfg, cfg.pairs / FRONT_PAIRS);
    } else if cfg.pairs * 65536 >= cfg.Base() {
      ManyPairsRefine(cfg);
    } else {
      var g, h := SplitBelow(cfg);
      assert Together(cfg, g, h);
    }
  }

  /** No run ever returns a superseded entry exactly when there is no front cache, its pairs divide
      the main table's, or the main table has a pair for every value of the bits above the tag. */
  lemma NeverStaleExactly(cfg: Config, n: nat)
    requires cfg.pairs == n / 2 && n >= 2
    ensures NeverStale(cfg, n) <==> !cfg.front || cfg.pairs % FRONT_PAIRS == 0 || cfg.pairs * 65536 >= cfg.Base()
  {
    hide NeverStale, Refines;
    NeverStaleIfRefined(cfg, n);
    RefinesExactly(cfg);
  }

  /** Slots `set_size` asks for. */
  function SlotsFor(bytes: nat): nat {
    Max(2, bytes / 8)
  }

  /** Every whole number of megabytes gives a table that never returns a superseded entry. */
  lemma WholeMegabytesNeverStale(cfg: Config, megabytes: nat)
    requires megabytes > 0 && cfg.pairs == SlotsFor(megabytes * 0x10_0000) / 2
    ensures NeverStale(cfg, SlotsFor(megabytes * 0x10_0000))
  {
    assert SlotsFor(megabytes * 0x10_0000) == megabytes * 0x2_0000;
    assert cfg.pairs == 8 * megabytes * FRONT_PAIRS;
    DivUnique(8 * megabytes, 0, FRONT_PAIRS);
    hide NeverStale, SlotsFor;
    NeverStaleExactly(cfg, SlotsFor(megabytes * 0x10_0000));
  }

  /** The smallest table can return one. */
  lemma SmallestCanBeStale(cfg: Config)
    requires cfg.front && cfg.pairs == 1
    ensures !NeverStale(cfg, SlotsFor(0))
  {
    hide NeverStale;
    NeverStaleExactly(cfg, 2);
  }

  // ---- the table itself ----

  /** `replace_slot`. */
  method ReplaceSlot(slots: array<Entry>, b: nat, tag: int, gen: int) returns (i: nat)
    requires 2 * b + 1 < slots.Length
    requires forall j :: 0 <= j < slots.Length ==> 0 <= slots[j].depth < 256
    ensures i == 2 * b + Victim(slots[2 * b], slots[2 * b + 1], tag, gen)
  {
    for k := 0 to 2
      invariant k > 0 ==> slots[2 * b].tag != tag
      invariant k > 1 ==> slots[2 * b + 1].tag != tag
    {
      if slots[2 * b + k].tag == tag {
        return 2 * b + k;
      }
    }
    var bestVal, best := 0x4000_0000, 0;
    for k := 0 to 2
      invariant k == 0 ==> bestVal == 0x4000_0000
      invariant k == 1 ==> best == 0 && bestVal == Worth(slots[2 * b], gen)
      invariant k == 2 ==> best == if Worth(slots[2 * b + 1], gen) < Worth(slots[2 * b], gen) then 1 else 0
    {
      var relAge := (gen - slots[2 * b + k].age) % 4;
      var val := slots[2 * b + k].depth - 4 * relAge;
      if val < bestVal {
        bestVal := val;
        best := k;
      }
    }
    i := 2 * b + best;
  }

  /** `a` holds the entries of `slots`. */
  ghost predicate Mirrors(a: array?<Entry>, slots: seq<Slot>)
    reads a
  {
    a != null ==>
      && a.Length == |slots|
      && forall i :: 0 <= i < a.Length ==> a[i] == slots[i].entry && 0 <= a[i].depth < 256
  }

  /** Replace in one level. */
  method Overwrite(a: array<Entry>, b: nat, e: Entry, gen: int, ghost slots: seq<Slot>, ghost s: Slot)
    requires Mirrors(a, slots) && 2 * b + 1 < a.Length && e == s.entry && 0 <= e.depth < 256
    modifies a
    ensures Mirrors(a, PutIn(slots, b, s, gen))
  {
    var i := ReplaceSlot(a, b, e.tag, gen);
    a[i] := e;
  }

  /** The two compares of a lookup. */
  method Probe(a: array<Entry>, b: nat, tag: int, ghost slots: seq<Slot>) returns (r: Option<Entry>)
    requires Mirrors(a, slots) && 2 * b + 1 < a.Length
    ensures r == if Find(slots, b, tag).Some? then Some(Find(slots, b, tag).value.entry) else None
    ensures r.Some? ==> r.value.tag == tag && 0 <= r.value.depth < 256
  {
    if a[2 * b].tag == tag {
      return Some(a[2 * b]);
    }
    if a[2 * b + 1].tag == tag {
      return Some(a[2 * b + 1]);
    }
    return None;
  }

  class Table {
    var entries: array?<Entry>
    var l0: array?<Entry>
    var generation: int
    const wide: bool
    ghost var view: Tables

    ghost predicate Linked()
      reads this, entries, l0
    {
      && Sized(view) && generation == view.gen && view.cfg.wide == wide
      && (entries == null <==> view.main == []) && Mirrors(entries, view.main)
      && (entries != null ==> view.cfg.pairs == entries.Length / 2)
      && (view.cfg.front <==> l0 != null) && (l0 != null ==> |view.front| == 2 * FRONT_PAIRS) && Mirrors(l0, view.front)
      && (entries != null && l0 != null ==> entries != l0)
    }

    ghost predicate Valid()
      reads this, entries, l0
    {
      Linked() && Ordered(view)
    }

    /** `allocate` and `reset`: either allocation may fail. */
    constructor (wide: bool, n: nat, mainOk: bool, frontOk: bool)
      requires n >= 2
      ensures Valid() && (entries != null ==> fresh(entries)) && (l0 != null ==> fresh(l0))
      ensures mainOk ==> view == Fresh(Config(wide, n / 2, frontOk), n)
      ensures !mainOk ==> view.main == []
    {
      this.wide, generation := wide, 1;
      entries, l0 := null, null;
      view := Tables(Config(wide, n / 2, frontOk), [], [], 1, []);
      new;
      Allocate(n, mainOk, frontOk);
    }

    method Allocate(n: nat, mainOk: bool, frontOk: bool)
      requires n >= 2 && 1 <= generation <= 3
      modifies this`view, this`entries, this`l0
      ensures Valid() && (entries != null ==> fresh(entries)) && (l0 != null ==> fresh(l0)) && generation == old(generation)
      ensures mainOk ==> view == Fresh(Config(wide, n / 2, frontOk), n).(gen := generation)
      ensures !mainOk ==> view.main == []
    {
      var front := null;
      if frontOk {
        front := new Entry[2 * FRONT_PAIRS](_ => BLANK);
      }
      var main := null;
      if mainOk {
        main := new Entry[n](_ => BLANK);
      }
      entries, l0 := main, front;
      var cfg := Config(wide, n / 2, frontOk);
      view := Fresh(cfg, n).(gen := generation);
      if !mainOk {
        view := view.(main := []);
      }
      FreshIsTidy(cfg, n);
      hide Level, AllHome, Index;
    }

    /** `set_size`: the allocator grants all the slots asked for, on the board perhaps fewer, those of
        its fallback in internal memory, or none. The slots granted decide whether a superseded entry
        can ever be returned. */
    method SetSize(bytes: nat, granted: nat, frontOk: bool)
      requires Valid() && (granted == 0 || 2 <= granted <= Max(SlotsFor(bytes), FALLBACK_SLOTS))
      modifies this`view, this`entries, this`l0
      ensures Valid() && generation == old(generation)
      ensures granted > 0 ==> view == Fresh(Config(wide, granted / 2, frontOk), granted).(gen := generation)
      ensures granted > 0 ==>
        (NeverStale(Config(wide, granted / 2, frontOk), granted) <==>
         !frontOk || granted / 2 % FRONT_PAIRS == 0 || granted / 2 * 65536 >= view.cfg.Base())
      ensures granted == 0 ==> view.main == []
    {
      hide NeverStale;
      if granted > 0 {
        NeverStaleExactly(Config(wide, granted / 2, frontOk), granted);
      }
      Allocate(Max(2, granted), granted > 0, frontOk);
    }

    /** `fastrange` on the low word of the hash. */
    function PairOf(h: Hash, pairs: int): (b: int)
      requires pairs > 0
      ensures 0 <= b < pairs && b == Index(Config(wide, 0, false), h, pairs)
    {
      var base := if wide then 0x1_0000_0000_0000_0000 else 0x1_0000_0000;
      FastRangeBounds(h % base, pairs, base);
      (h % base) * pairs / base
    }

    lemma PairsAgree(h: Hash)
      requires Linked() && entries != null
      ensures entries.Length / 2 > 0 && PairOf(h, entries.Length / 2) == MainPair(view, h)
      ensures l0 != null ==> PairOf(h, FRONT_PAIRS) == FrontPair(view, h)
    {
    }

    /** `lookup`. */
    method Lookup(h: Hash) returns (r: Option<Entry>)
      requires Valid()
      modifies this`view, l0
      ensures Valid() && view == Looked(old(view), h)
      ensures r == if Hit(old(view), h).Some? then Some(Hit(old(view), h).value.entry) else None
    {
      if entries == null {
        return None;
      }
      PairsAgree(h);
      LookKeepsOrder(view, h);
      hide Ordered, PairOf, Find, PutIn;
      if l0 != null {
        r := Probe(l0, PairOf(h, FRONT_PAIRS), h % 65536, view.front);
        if r.Some? {
          return;
        }
      }
      r := Probe(entries, PairOf(h, entries.Length / 2), h % 65536, view.main);
      if r.Some? {
        if l0 != null {
          Overwrite(l0, PairOf(h, FRONT_PAIRS), r.value, generation, view.front, MainHit(view, h).value);
        }
        view := Looked(view, h);
      }
    }

    /** The main-table half of a store. */
    method StoreMain(r: Request) returns (cur: Entry)
      requires Linked() && entries != null
      modifies entries
      ensures cur == StoredSlot(view, r).entry && cur.tag == Tag(r.hash) && 0 <= cur.depth < 256
      ensures entries.Length == old(entries.Length) && Mirrors(entries, PutIn(view.main, MainPair(view, r.hash), StoredSlot(view, r), view.gen))
    {
      var tag := r.hash % 65536;
      PairsAgree(r.hash);
      hide PairOf, Wrap16, Index, Worth;
      var i := ReplaceSlot(entries, PairOf(r.hash, entries.Length / 2), tag, generation);
      cur := entries[i];
      if r.move.Some? {
        cur := cur.(move := r.move.value);
      } else if cur.tag != tag {
        cur := cur.(move := 0);
      }
      cur := cur.(score := Wrap16(r.score), depth := r.depth % 256, flags := r.flag, tag := tag, age := generation);
      entries[i] := cur;
    }

    /** Both overloads of `store`: with a move, and keeping the old one. */
    method Store(r: Request)
      requires Valid()
      modifies this`view, entries, l0
      ensures Valid() && view == Stored(old(view), r)
    {
      if entries == null {
        return;
      }
      PairsAgree(r.hash);
      StoreKeepsOrder(view, r);
      hide Ordered, PairOf, StoredSlot, PutIn;
      var cur := StoreMain(r);
      if l0 != null {
        Overwrite(l0, PairOf(r.hash, FRONT_PAIRS), cur, generation, view.front, StoredSlot(view, r));
      }
      view := Stored(view, r);
    }

    method NewSearch()
      requires Valid()
      modifies this`view, this`generation
      ensures Valid() && view == old(view).(gen := NextGeneration(old(view).gen))
    {
      generation := (generation + 1) % 4;
      if generation == 0 {
        generation := 1;
      }
      view := view.(gen := generation);
    }

    method Reset()
      requires Valid()
      modifies this`view, entries, l0
      ensures Valid() && view == Cleared(old(view))
    {
      if entries == null {
        return;
      }
      ClearKeepsOrder(view);
      hide Ordered;
      Zero(entries);
      if l0 != null {
        Zero(l0);
      }
      view := Cleared(view);
    }
  }

  method Zero(a: array<Entry>)
    modifies a
    ensures forall i :: 0 <= i < a.Length ==> a[i] == BLANK
  {
    for i := 0 to a.Length
      invariant forall j :: 0 <= j < i ==> a[j] == BLANK
    {
      a[i] := BLANK;
    }
  }

  // ---- what fits in an entry ----

  function TypeCode(k: MoveType): (c: int)
    ensures 0 <= c < 8
  {
    match k
    case Untyped => 0 case Normal => 1 case Castling => 2 case EnPassant => 3
    case Promotion => 4 case DoublePush => 5 case Capture => 6 case CapturePromotion => 7
  }

  function TypeOfCode(c: int): MoveType
    requires 0 <= c < 8
  {
    [Untyped, Normal, Castling, EnPassant, Promotion, DoublePush, Capture, CapturePromotion][c]
  }

  /** `libchessmove_to_uint`: six bits from, six bits to, three of promotion, three of type. */
  function EncodeMove(m: Move): int {
    m.from + 64 * m.to + 4096 * (if m.PromotionType().Some? then m.PromotionType().value else 0) + 32768 * TypeCode(m.kind)
  }

  /** `uint_to_libchessmove`. */
  function DecodeMove(v: int): Option<Move>
    requires 0 <= v < 0x4_0000
  {
    var promotion := v / 4096 % 8;
    if promotion < 6 then Some(Move(v % 64, v / 64 % 64, promotion, TypeOfCode(v / 32768))) else None
  }

  /** The 18 bits hold the whole move; a meaningless king "promotion" reads back as none. */
  lemma MoveRoundTrip(m: Move)
    ensures 0 <= EncodeMove(m) < 0x4_0000
    ensures DecodeMove(EncodeMove(m)) == Some(m.(promotion := if m.PromotionType().Some? then m.promotion else PAWN))
  {
    var p := if m.PromotionType().Some? then m.promotion else 0;
    MoveFields(m.from, m.to, p, TypeCode(m.kind));
    assert TypeOfCode(TypeCode(m.kind)) == m.kind;
    hide TypeCode, TypeOfCode;
  }

  lemma MoveFields(from: int, to: int, p: int, c: int)
    requires 0 <= from < 64 && 0 <= to < 64 && 0 <= p < 8 && 0 <= c < 8
    ensures
      var v := from + 64 * to + 4096 * p + 32768 * c;
      0 <= v < 0x4_0000 && v % 64 == from && v / 64 % 64 == to && v / 4096 % 8 == p && v / 32768 == c
  {
    var v := from + 64 * to + 4096 * p + 32768 * c;
    DivUnique(to + 64 * p + 512 * c, from, 64);
    DivUnique(p + 8 * c, to, 64);
    DivUnique(p + 8 * c, from + 64 * to, 4096);
    DivUnique(c, p, 8);
    DivUnique(c, from + 64 * to + 4096 * p, 32768);
  }

  /** Mate scores are stored relative to the node and read back relative to the root. */
  function EvalToTt(eval: int, ply: int): int {
    if eval > MAX_NON_MATE then eval + ply else if eval < -MAX_NON_MATE then eval - ply else eval
  }

  function EvalFromTt(eval: int, ply: int): int {
    if eval > MAX_NON_MATE then eval - ply else if eval < -MAX_NON_MATE then eval + ply else eval
  }

  /** Stored at one ply and read at another, a mate stays as far from the position it was found in, and
      any other score stays itself. */
  lemma MateDistanceKept(eval: int, stored: nat, read: nat)
    ensures eval > 29500 ==> 30000 - EvalFromTt(EvalToTt(eval, stored), read) - read == 30000 - eval - stored
    ensures eval < -29500 ==> 30000 + EvalFromTt(EvalToTt(eval, stored), read) - read == 30000 + eval - stored
    ensures -29500 <= eval <= 29500 ==> EvalFromTt(EvalToTt(eval, stored), read) == eval
  {
  }

  /** A score survives the table's 16 bits and comes back as itself at the same ply. */
  lemma ScoreRoundTrip(eval: int, ply: int)
    requires 0 <= ply <= 2768 && -30000 <= eval < 30000
    ensures EvalFromTt(Wrap16(EvalToTt(eval, ply)), ply) == eval
  {
  }
}
