/** The opening book: a binary search for any entry of the position's key, a scan both ways over
    the run of equal keys, and the heaviest move of what it collected. */
module Book {
  import opened Types

  /** One entry as read, byte order already undone. */
  datatype Entry = Entry(hash: int, move: int, weight: nat)

  predicate Readable(book: seq<Option<Entry>>) {
    forall i :: 0 <= i < |book| ==> book[i].Some?
  }

  predicate Sorted(book: seq<Option<Entry>>)
    requires Readable(book)
  {
    forall i, j :: 0 <= i <= j < |book| ==> book[i].value.hash <= book[j].value.hash
  }

  /** The entry at `i` has the key. */
  predicate Matches(book: seq<Option<Entry>>, hash: int, i: int) {
    0 <= i < |book| && book[i].Some? && book[i].value.hash == hash
  }

  /** `i` lies beyond `start` in this direction and every entry up to it has the key. */
  ghost predicate InRun(book: seq<Option<Entry>>, hash: int, start: int, direction: int, i: int) {
    && Matches(book, hash, i) && (direction == 1 ==> start < i) && (direction != 1 ==> i < start)
    && forall j :: (start <= j <= i || i <= j <= start) ==> Matches(book, hash, j)
  }

  /** On a sorted book the run is every entry with the key. */
  lemma RunIsAll(book: seq<Option<Entry>>, hash: int, start: int, i: int)
    requires Readable(book) && Sorted(book) && Matches(book, hash, start) && Matches(book, hash, i) && i != start
    ensures InRun(book, hash, start, if i < start then -1 else 1, i)
  {
  }

  /** `i` is met before `j` when scanning in this direction. */
  predicate Before(direction: int, i: int, j: int) {
    if direction == 1 then i < j else j < i
  }

  /** One direction of the scan: the entries of the run whose moves are legal here, nearest first. */
  method Scan(book: seq<Option<Entry>>, hash: int, legal: int -> bool, start: nat, direction: int) returns (found: seq<nat>)
    requires Matches(book, hash, start) && (direction == 1 || direction == -1)
    ensures forall i: nat :: i in found <==> InRun(book, hash, start, direction, i) && legal(book[i].value.move)
    ensures forall j, k :: 0 <= j < k < |found| ==> Before(direction, found[j], found[k])
  {
    found := [];
    var index: int := start;
    while true
      invariant 0 <= index < |book| && (index == start || Before(direction, start, index))
      invariant forall j :: (start <= j <= index || index <= j <= start) ==> Matches(book, hash, j)
      invariant forall i: nat :: i in found <==> InRun(book, hash, start, direction, i) && !Before(direction, index, i) && legal(book[i].value.move)
      invariant forall k :: 0 <= k < |found| ==> !Before(direction, index, found[k])
      invariant forall j, k :: 0 <= j < k < |found| ==> Before(direction, found[j], found[k])
      decreases if direction == 1 then |book| - index else index
    {
      ghost var last := index;
      index := index + direction;
      assert forall i: nat :: InRun(book, hash, start, direction, i) && Before(direction, last, i) ==> Matches(book, hash, index);
      if index == (if direction == 1 then |book| else -1) {
        break;
      }
      if book[index].None? {
        break;
      }
      if book[index].value.hash != hash {
        break;
      }
      assert InRun(book, hash, start, direction, index);
      if legal(book[index].value.move) {
        found := found + [index];
      }
    }
  }

  /** `best` is the place number `at`: none is heavier, and every earlier one is lighter. */
  predicate FirstHeaviest(book: seq<Option<Entry>>, places: seq<nat>, best: nat, at: nat)
    requires forall k :: 0 <= k < |places| ==> places[k] < |book| && book[places[k]].Some?
  {
    && at < |places| && best == places[at]
    && (forall k :: 0 <= k < |places| ==> book[places[k]].value.weight <= book[best].value.weight)
    && forall k :: 0 <= k < at ==> book[places[k]].value.weight < book[best].value.weight
  }

  /** The first of the heaviest. */
  method Heaviest(book: seq<Option<Entry>>, places: seq<nat>) returns (best: nat)
    requires places != [] && forall k :: 0 <= k < |places| ==> places[k] < |book| && book[places[k]].Some?
    ensures exists at: nat :: FirstHeaviest(book, places, best, at)
  {
    var work: seq<nat> := [];
    var maxWeight: int := -1;
    ghost var at := 0;
    for k := 0 to |places|
      invariant if k == 0 then maxWeight == -1 && at == 0 else work != [] && at < k && work[0] == places[at] && book[places[at]].value.weight == maxWeight
      invariant forall j :: 0 <= j < k ==> book[places[j]].value.weight <= maxWeight
      invariant forall j :: 0 <= j < at ==> book[places[j]].value.weight < maxWeight
    {
      var w := book[places[k]].value.weight;
      if w > maxWeight {
        maxWeight := w;
        work := [places[k]];
        at := k;
      } else if w == maxWeight {
        work := work + [places[k]];
      }
    }
    best := work[0];
    assert FirstHeaviest(book, places, best, at);
  }

  /** The entry the binary search of `[low, high)` hits: none when it reads a bad entry or runs dry. */
  function Probe(book: seq<Option<Entry>>, hash: int, low: nat, high: nat): (hit: Option<nat>)
    requires low <= high <= |book|
    ensures hit.Some? ==> low <= hit.value < high && Matches(book, hash, hit.value)
    decreases high - low
  {
    if low == high then None
    else
      var mid := (low + high) / 2;
      if book[mid].None? then None
      else if book[mid].value.hash < hash then Probe(book, hash, mid + 1, high)
      else if book[mid].value.hash > hash then Probe(book, hash, low, mid)
      else Some(mid)
  }

  /** On a readable, sorted book the search finds the key exactly when it is there. */
  lemma {:induction false} ProbeExact(book: seq<Option<Entry>>, hash: int, low: nat, high: nat)
    requires low <= high <= |book| && Readable(book) && Sorted(book)
    ensures Probe(book, hash, low, high).Some? <==> exists i :: low <= i < high && Matches(book, hash, i)
    decreases high - low
  {
    if low < high {
      var mid := (low + high) / 2;
      if book[mid].value.hash < hash {
        ProbeExact(book, hash, mid + 1, high);
      } else if book[mid].value.hash > hash {
        ProbeExact(book, hash, low, mid);
      } else {
        assert Matches(book, hash, mid);
      }
    }
  }

  /** What the answer is chosen from: the hit itself, unchecked, and the legal entries around it. */
  ghost predicate Candidate(book: seq<Option<Entry>>, hash: int, legal: int -> bool, hit: nat, i: nat) {
    i < |book| && book[i].Some? &&
    (i == hit || ((InRun(book, hash, hit, -1, i) || InRun(book, hash, hit, 1, i)) && legal(book[i].value.move)))
  }

  /** The order in which candidates are collected: the hit, then backwards, then forwards. */
  predicate Sooner(hit: nat, i: nat, j: nat) {
    i != j && (if i <= hit then j < i || hit < j else hit < i < j)
  }

  /** The choice: heaviest, and the soonest collected of equal weight. */
  ghost predicate Chosen(book: seq<Option<Entry>>, hash: int, legal: int -> bool, hit: nat, r: nat) {
    && Candidate(book, hash, legal, hit, r)
    && forall i: nat :: Candidate(book, hash, legal, hit, i) ==>
         book[i].value.weight <= book[r].value.weight && (i != r && book[i].value.weight == book[r].value.weight ==> Sooner(hit, r, i))
  }

  /** There is one choice. */
  lemma ChosenUnique(book: seq<Option<Entry>>, hash: int, legal: int -> bool, hit: nat, r: nat, s: nat)
    requires Chosen(book, hash, legal, hit, r) && Chosen(book, hash, legal, hit, s)
    ensures r == s
  {
  }

  /** On a readable, sorted book: no answer exactly when the key is absent; otherwise an entry of
      the key at least as heavy as every legal one. */
  lemma AnswerMeaning(book: seq<Option<Entry>>, hash: int, legal: int -> bool)
    requires Readable(book) && Sorted(book)
    ensures Probe(book, hash, 0, |book|).None? <==> forall i :: !Matches(book, hash, i)
    ensures forall hit, r: nat :: Probe(book, hash, 0, |book|) == Some(hit) && Chosen(book, hash, legal, hit, r) ==>
      Matches(book, hash, r) && forall i :: Matches(book, hash, i) && legal(book[i].value.move) ==> book[i].value.weight <= book[r].value.weight
  {
    ProbeExact(book, hash, 0, |book|);
    forall hit, r: nat, i | Probe(book, hash, 0, |book|) == Some(hit) && Chosen(book, hash, legal, hit, r) && Matches(book, hash, i) && legal(book[i].value.move)
      ensures book[i].value.weight <= book[r].value.weight
    {
      if i != hit {
        RunIsAll(book, hash, hit, i);
      }
      assert Candidate(book, hash, legal, hit, i);
    }
  }

  /** The first of the heaviest of `[hit] + back + ahead` is the choice. */
  lemma FirstHeaviestIsChosen(book: seq<Option<Entry>>, hash: int, legal: int -> bool, hit: nat, back: seq<nat>, ahead: seq<nat>, r: nat, at: nat)
    requires Matches(book, hash, hit)
    requires forall i: nat :: i in back <==> InRun(book, hash, hit, -1, i) && legal(book[i].value.move)
    requires forall i: nat :: i in ahead <==> InRun(book, hash, hit, 1, i) && legal(book[i].value.move)
    requires forall j, k :: 0 <= j < k < |back| ==> back[k] < back[j]
    requires forall j, k :: 0 <= j < k < |ahead| ==> ahead[j] < ahead[k]
    requires forall k :: 0 <= k < |[hit] + back + ahead| ==> ([hit] + back + ahead)[k] < |book| && book[([hit] + back + ahead)[k]].Some?
    requires FirstHeaviest(book, [hit] + back + ahead, r, at)
    ensures Chosen(book, hash, legal, hit, r)
  {
    hide Matches;
    var places := [hit] + back + ahead;
    assert r == hit || r in back || r in ahead;
    forall i: nat | Candidate(book, hash, legal, hit, i)
      ensures book[i].value.weight <= book[r].value.weight && (i != r && book[i].value.weight == book[r].value.weight ==> Sooner(hit, r, i))
    {
      assert i in places by {
        assert i == hit || i in back || i in ahead;
      }
      var k :| 0 <= k < |places| && places[k] == i;
      if i != r && book[i].value.weight == book[r].value.weight {
        assert at < k;
      }
    }
  }

  /** `query`; the answer is the entry whose move is played. The entry the search first hits is
      collected unchecked, the others only when legal. */
  method Query(book: seq<Option<Entry>>, hash: int, legal: int -> bool) returns (r: Option<nat>)
    ensures r.Some? <==> Probe(book, hash, 0, |book|).Some?
    ensures r.Some? ==> Chosen(book, hash, legal, Probe(book, hash, 0, |book|).value, r.value)
  {
    var low, high := 0, |book|;
    while low < high
      invariant 0 <= low <= high <= |book|
      invariant Probe(book, hash, low, high) == Probe(book, hash, 0, |book|)
      decreases high - low
    {
      var mid := (low + high) / 2;
      if book[mid].None? {
        return None;
      }
      if book[mid].value.hash < hash {
        low := mid + 1;
      } else if book[mid].value.hash > hash {
        high := mid;
      } else {
        var back := Scan(book, hash, legal, mid, -1);
        var ahead := Scan(book, hash, legal, mid, 1);
        var places := [mid] + back + ahead;
        forall k | 0 <= k < |places| ensures Matches(book, hash, places[k]) {
          assert places[k] == mid || places[k] in back || places[k] in ahead;
        }
        var best := Heaviest(book, places);
        ghost var at :| FirstHeaviest(book, places, best, at);
        FirstHeaviestIsChosen(book, hash, legal, mid, back, ahead, best, at);
        return Some(best);
      }
    }
    return None;
  }
}
