/** The board's web game session: HTTP handlers that run one at a time, search workers that land
    whenever their search ends, and wall-clock chess clocks with pause. Handlers that block on the
    engine are split at the blocking call. */
module Web {
  import opened Types

  const START_BASE: int := 300000
  const START_INC: int := 3000
  const IDLE_TAKEOVER: int := 180000

  /** One search reply of the engine. */
  datatype Reply = Reply(valid: bool, gameOver: bool, gameState: string, best: string, elapsed: nat)

  /** A detached worker and what it captured when it was spawned. */
  datatype Worker = Worker(gen: int, moves: seq<string>, book: bool, humanWhite: bool)

  datatype Setup = Setup(pid: string, humanWhite: bool, base: Option<int>, inc: Option<int>, preset: Preset)

  /** A time control: positive base, increment not negative. */
  datatype Preset = Preset(base: int, inc: int)

  /** What the one HTTP task is blocked in. */
  datatype Call = Idle | InSync(moves: seq<string>, book: bool, gen: int) | InNew(setup: Setup) | InYield

  datatype Session = Session(
    humanWhite: bool, base: int, inc: int,
    white: int, black: int,
    log: seq<string>, over: bool, result: string,
    lastSeq: int, anchor: int,
    paused: bool, pauseStart: int, searching: bool, gen: int,
    owner: string, queue: seq<string>, activity: int,
    workers: seq<Worker>, call: Call)

  const INITIAL: Session := Session(
    true, START_BASE, START_INC, START_BASE, START_BASE, [], false, "", 0, 0, false, 0, false, 0, "", [], 0, [], Idle)

  datatype Request = Request(pid: string, moves: seq<string>, seq_: int, async: bool, answered: bool)

  // ---- clocks ----

  function WhiteToMove(s: Session): bool {
    |s.log| % 2 == 0
  }

  function Clock(s: Session, white: bool): int {
    if white then s.white else s.black
  }

  function SetClock(s: Session, white: bool, ms: int): (r: Session)
    ensures Clock(r, white) == ms && Clock(r, !white) == Clock(s, !white)
  {
    if white then s.(white := ms) else s.(black := ms)
  }

  function Wins(white: bool): string {
    if white then "white_wins" else "black_wins"
  }

  /** Charge a mover, floor at zero, credit the increment if time is left. */
  function Charged(clock: int, spent: int, inc: int): int {
    if clock - spent <= 0 then 0 else clock - spent + inc
  }

  // ---- handlers ----

  /** `/state`: a flag falls here even if nobody moves again; otherwise nothing is written. */
  function Poll(s: Session, now: int): Session {
    if !s.paused && !s.over && s.anchor != 0 && Clock(s, WhiteToMove(s)) - (now - s.anchor) <= 0 then
      SetClock(s, WhiteToMove(s), 0).(over := true, result := Wins(!WhiteToMove(s)))
    else s
  }

  /** The clocks `/state` shows. */
  function Shown(s: Session, now: int, white: bool): int {
    if s.paused && s.anchor != 0 && white == WhiteToMove(s) then
      Max(0, Clock(s, white) - (s.pauseStart - s.anchor))
    else Clock(Poll(s, now), white)
  }

  predicate Foreign(s: Session, pid: string) {
    pid != "" && s.owner != "" && pid != s.owner
  }

  predicate Takeable(s: Session, now: int) {
    !s.paused && (s.over || s.activity == 0 || now - s.activity > IDLE_TAKEOVER)
  }

  /** The log already holds these moves and the engine's answer. */
  predicate AlreadyAnswered(s: Session, r: Request) {
    s.log != [] && |s.log| == |r.moves| + 1 && s.log[..|r.moves|] == r.moves && r.answered
  }

  predicate Accepted(s: Session, r: Request) {
    !Foreign(s, r.pid) && !s.paused && !s.searching && !AlreadyAnswered(s, r)
  }

  /** A request that charges the human's clock. */
  predicate Books(s: Session, r: Request) {
    Accepted(s, r) && r.seq_ != s.lastSeq && !s.over && r.moves != []
  }

  /** `/move`, up to the answer, the spawn of a worker, or the blocking search. */
  function MoveCall(s: Session, r: Request, now: int): Session {
    if !Accepted(s, r) then s
    else
      var book := r.seq_ != s.lastSeq;
      var t := s.(lastSeq := r.seq_);
      if Books(s, r) then
        var left := Charged(Clock(s, s.humanWhite), now - s.anchor, s.inc);
        var u := SetClock(t, s.humanWhite, left).(anchor := now);
        if Clock(s, s.humanWhite) - (now - s.anchor) <= 0 then
          u.(over := true, result := Wins(!s.humanWhite), log := r.moves, activity := now)
        else Started(u, r, book)
      else Started(t, r, book)
  }

  function Started(s: Session, r: Request, book: bool): Session {
    if r.async then
      s.(searching := true, log := r.moves, workers := s.workers + [Worker(s.gen, r.moves, book, s.humanWhite)])
    else s.(call := InSync(r.moves, book, s.gen))
  }

  /** What a reply of the current game writes: the engine's clock, the anchor, result and log. */
  function Answered(s: Session, moves: seq<string>, book: bool, humanWhite: bool, last: Reply, now: int): Session {
    var counts := book && !s.over;
    var charged := counts && last.valid && !last.gameOver;
    var flags := charged && Clock(s, !humanWhite) - last.elapsed <= 0;
    var t := if charged then SetClock(s, !humanWhite, Charged(Clock(s, !humanWhite), last.elapsed, s.inc)) else s;
    var u := if counts then t.(anchor := now, activity := now) else t;
    if last.gameOver then u.(over := true, result := last.gameState, log := moves)
    else if flags then u.(over := true, result := Wins(humanWhite), log := moves)
    else if !last.valid || last.best == "" then u
    else u.(log := moves + [last.best])
  }

  function Without(s: Session, i: nat): Session
    requires i < |s.workers|
  {
    s.(workers := s.workers[..i] + s.workers[i + 1..])
  }

  /** A worker lands: dropped when its game is gone, a timeout re-anchors, a reply is written. */
  function Land(s: Session, i: nat, ok: bool, last: Reply, now: int): Session
    requires i < |s.workers|
  {
    var w, t := s.workers[i], Without(s, i);
    if w.gen != s.gen then t
    else if !ok then t.(anchor := now, searching := false)
    else Answered(t, w.moves, w.book, w.humanWhite, last, now).(searching := false)
  }

  /** The blocking search of `/move` returns. */
  function SyncLand(s: Session, ok: bool, last: Reply, now: int): Session
    requires s.call.InSync?
  {
    var t := s.(call := Idle);
    if !ok then t.(anchor := now)
    else if s.call.gen != s.gen then t
    else Answered(t, s.call.moves, s.call.book, s.humanWhite, last, now)
  }

  /** `/new`, up to its blocking call: the seat, then the generation. */
  function NewCall(s: Session, setup: Setup, now: int): Session {
    if Foreign(s, setup.pid) && !(s.queue != [] && s.queue[0] == setup.pid && Takeable(s, now)) then s
    else s.(gen := s.gen + 1, call := InNew(setup))
  }

  function Drop(queue: seq<string>, pid: string): seq<string> {
    if queue == [] then [] else if queue[0] == pid then queue[1..] else [queue[0]] + Drop(queue[1..], pid)
  }

  lemma DropOn(all: seq<string>, pid: string, i: nat)
    requires i < |all| && all[i] != pid
    ensures all[..i] + Drop(all[i..], pid) == all[..i + 1] + Drop(all[i + 1..], pid)
  {
    assert all[i..][1..] == all[i + 1..];
  }

  /** The rest of `/new`. */
  function FinishNew(s: Session, ok: bool, now: int): Session
    requires s.call.InNew?
  {
    var t, setup := s.(call := Idle), s.call.setup;
    if !ok then t
    else
      var custom := setup.base.Some? || setup.inc.Some?;
      var base := if setup.base.Some? then setup.base.value else if custom then s.base else setup.preset.base;
      var inc := if setup.inc.Some? then setup.inc.value else if custom then s.inc else setup.preset.inc;
      t.(humanWhite := setup.humanWhite, base := base, inc := inc, white := base, black := base,
         log := [], over := false, result := "", lastSeq := 0, anchor := now,
         paused := false, pauseStart := 0, searching := false,
         owner := setup.pid, queue := if setup.pid != "" then Drop(s.queue, setup.pid) else s.queue, activity := now)
  }

  predicate MayYield(s: Session, pid: string, now: int) {
    pid != "" && (pid == s.owner || Takeable(s, now))
  }

  /** `/yield`: the seat is free; a finished game is cleared, up to the blocking call. */
  function YieldCall(s: Session, pid: string, now: int): Session {
    if !MayYield(s, pid, now) then s
    else if !s.over then s.(owner := "")
    else s.(owner := "", gen := s.gen + 1, log := [], over := false, result := "", lastSeq := 0, call := InYield)
  }

  function FinishYield(s: Session, now: int): Session
    requires s.call.InYield?
  {
    s.(call := Idle, white := s.base, black := s.base, anchor := now, paused := false, pauseStart := 0, searching := false)
  }

  /** `/resign`. */
  function Resign(s: Session, pid: string): Session {
    if pid == "" || Foreign(s, pid) || s.over || s.owner == "" then s
    else s.(over := true, result := Wins(!s.humanWhite), gen := s.gen + 1)
  }

  /** `/pause`. */
  function Pause(s: Session, pid: string, now: int): Session {
    if pid == "" || Foreign(s, pid) || s.paused || s.searching || s.over then s
    else s.(pauseStart := now, paused := true)
  }

  /** `/resume`: the anchor moves forward by the time paused. */
  function Resume(s: Session, pid: string, now: int): Session {
    if pid == "" || Foreign(s, pid) || !s.paused then s
    else s.(anchor := s.anchor + (now - s.pauseStart), paused := false, pauseStart := 0)
  }

  /** `/queue` and `/unqueue`. */
  function Join(s: Session, pid: string): Session {
    if pid == "" then s else s.(queue := Drop(s.queue, pid) + [pid])
  }

  function Leave(s: Session, pid: string): Session {
    if pid == "" then s else s.(queue := Drop(s.queue, pid))
  }

  // ---- the step system ----

  datatype Event =
    | GetState(now: int)
    | PostMove(r: Request, now: int)
    | SearchEnds(ok: bool, last: Reply, now: int)
    | WorkerLands(i: nat, ok: bool, last: Reply, now: int)
    | PostNew(setup: Setup, now: int)
    | NewEnds(ok: bool, now: int)
    | PostYield(pid: string, now: int)
    | YieldEnds(now: int)
    | PostResign(pid: string, now: int)
    | PostPause(pid: string, now: int)
    | PostResume(pid: string, now: int)
    | PostQueue(pid: string, now: int)
    | PostUnqueue(pid: string, now: int)

  /** Presets and overrides as the handler has already range-checked them. */
  predicate GoodSetup(setup: Setup) {
    && setup.preset.base > 0 && setup.preset.inc >= 0
    && (setup.base.Some? ==> setup.base.value >= 1000) && (setup.inc.Some? ==> setup.inc.value >= 0)
  }

  /** One HTTP request at a time; a worker can land between any two steps. */
  predicate Enabled(s: Session, e: Event) {
    match e
    case WorkerLands(i, _, _, _) => i < |s.workers|
    case SearchEnds(_, _, _) => s.call.InSync?
    case NewEnds(_, _) => s.call.InNew?
    case YieldEnds(_) => s.call.InYield?
    case PostNew(setup, _) => s.call.Idle? && GoodSetup(setup)
    case _ => s.call.Idle?
  }

  function Step(s: Session, e: Event): Session
    requires Enabled(s, e)
  {
    match e
    case GetState(now) => Poll(s, now)
    case PostMove(r, now) => MoveCall(s, r, now)
    case SearchEnds(ok, last, now) => SyncLand(s, ok, last, now)
    case WorkerLands(i, ok, last, now) => Land(s, i, ok, last, now)
    case PostNew(setup, now) => NewCall(s, setup, now)
    case NewEnds(ok, now) => FinishNew(s, ok, now)
    case PostYield(pid, now) => YieldCall(s, pid, now)
    case YieldEnds(now) => FinishYield(s, now)
    case PostResign(pid, _) => Resign(s, pid)
    case PostPause(pid, now) => Pause(s, pid, now)
    case PostResume(pid, now) => Resume(s, pid, now)
    case PostQueue(pid, _) => Join(s, pid)
    case PostUnqueue(pid, _) => Leave(s, pid)
  }

  /** The trace runs from `s` to `t`. */
  ghost predicate Leads(s: Session, trace: seq<Event>, t: Session)
    decreases |trace|
  {
    if trace == [] then s == t else Enabled(s, trace[0]) && Leads(Step(s, trace[0]), trace[1..], t)
  }

  // ---- what every step keeps ----

  predicate Live(workers: seq<Worker>, gen: int, i: int) {
    0 <= i < |workers| && workers[i].gen == gen
  }

  /** No worker of a later game, and at most one of the current one. */
  ghost predicate OneLive(workers: seq<Worker>, gen: int) {
    && (forall i :: 0 <= i < |workers| ==> workers[i].gen <= gen)
    && (forall i, j :: Live(workers, gen, i) && Live(workers, gen, j) ==> i == j)
  }

  ghost predicate NoneLive(workers: seq<Worker>, gen: int) {
    forall i :: !Live(workers, gen, i)
  }

  /** At most one worker of the current game; while it runs the session says so, is not paused
      and no request is blocked; clocks are never negative. */
  ghost predicate Safe(s: Session) {
    && OneLive(s.workers, s.gen)
    && ((s.searching && !s.paused && s.call.Idle?) || NoneLive(s.workers, s.gen))
    && (s.call.InSync? ==> s.call.gen == s.gen && !s.searching && !s.paused)
    && s.white >= 0 && s.black >= 0 && s.base > 0 && s.inc >= 0
    && (s.call.InNew? ==> GoodSetup(s.call.setup))
  }

  lemma InitialIsSafe()
    ensures Safe(INITIAL)
  {
  }

  lemma WithoutOne(workers: seq<Worker>, gen: int, i: nat)
    requires OneLive(workers, gen) && i < |workers|
    ensures OneLive(workers[..i] + workers[i + 1..], gen)
    ensures (NoneLive(workers, gen) || Live(workers, gen, i)) ==> NoneLive(workers[..i] + workers[i + 1..], gen)
  {
    var rest := workers[..i] + workers[i + 1..];
    forall j | Live(rest, gen, j) ensures Live(workers, gen, if j < i then j else j + 1) {
    }
  }

  lemma NextGenerationHasNone(workers: seq<Worker>, gen: int)
    requires OneLive(workers, gen)
    ensures OneLive(workers, gen + 1) && NoneLive(workers, gen + 1)
  {
  }

  lemma SpawnOne(workers: seq<Worker>, gen: int, w: Worker)
    requires OneLive(workers, gen) && NoneLive(workers, gen) && w.gen == gen
    ensures OneLive(workers + [w], gen)
  {
    forall j | Live(workers + [w], gen, j) ensures j == |workers| {
      assert !Live(workers, gen, j);
    }
  }

  /** A reply touches the clocks, the anchor, the activity time, the result and the log only. */
  lemma AnsweredKeeps(s: Session, moves: seq<string>, book: bool, humanWhite: bool, last: Reply, now: int)
    requires s.white >= 0 && s.black >= 0 && s.inc >= 0
    ensures
      var t := Answered(s, moves, book, humanWhite, last, now);
      && t.white >= 0 && t.black >= 0
      && t == s.(white := t.white, black := t.black, anchor := t.anchor, activity := t.activity, over := t.over, result := t.result, log := t.log)
  {
  }

  lemma LandKeepsSafe(s: Session, i: nat, ok: bool, last: Reply, now: int)
    requires Safe(s) && i < |s.workers|
    ensures Safe(Land(s, i, ok, last, now)) && Land(s, i, ok, last, now).gen == s.gen
  {
    var w, t := s.workers[i], Without(s, i);
    WithoutOne(s.workers, s.gen, i);
    AnsweredKeeps(t, w.moves, w.book, w.humanWhite, last, now);
    assert w.gen == s.gen ==> Live(s.workers, s.gen, i);
    hide OneLive, NoneLive, Answered, Live;
  }

  lemma SyncLandKeepsSafe(s: Session, ok: bool, last: Reply, now: int)
    requires Safe(s) && s.call.InSync?
    ensures Safe(SyncLand(s, ok, last, now)) && SyncLand(s, ok, last, now).gen == s.gen
  {
    AnsweredKeeps(s.(call := Idle), s.call.moves, s.call.book, s.humanWhite, last, now);
    hide OneLive, NoneLive, Answered;
  }

  lemma MoveKeepsSafe(s: Session, r: Request, now: int)
    requires Safe(s) && s.call.Idle?
    ensures Safe(MoveCall(s, r, now)) && MoveCall(s, r, now).gen == s.gen
  {
    if NoneLive(s.workers, s.gen) {
      SpawnOne(s.workers, s.gen, Worker(s.gen, r.moves, r.seq_ != s.lastSeq, s.humanWhite));
    }
    hide OneLive, NoneLive, AlreadyAnswered;
  }

  lemma SeatKeepsSafe(s: Session, e: Event)
    requires Safe(s) && Enabled(s, e) && (e.PostNew? || e.NewEnds? || e.PostYield? || e.YieldEnds?)
    ensures Safe(Step(s, e)) && Step(s, e).gen >= s.gen
  {
    NextGenerationHasNone(s.workers, s.gen);
    hide OneLive, NoneLive, Drop, Foreign, Takeable, Land, MoveCall, SyncLand;
  }

  /** Every step keeps the session safe. */
  lemma StepKeepsSafe(s: Session, e: Event)
    requires Safe(s) && Enabled(s, e)
    ensures Safe(Step(s, e)) && Step(s, e).gen >= s.gen
  {
    if e.WorkerLands? {
      LandKeepsSafe(s, e.i, e.ok, e.last, e.now);
    } else if e.SearchEnds? {
      SyncLandKeepsSafe(s, e.ok, e.last, e.now);
    } else if e.PostMove? {
      MoveKeepsSafe(s, e.r, e.now);
    } else if e.PostNew? || e.NewEnds? || e.PostYield? || e.YieldEnds? {
      SeatKeepsSafe(s, e);
    } else {
      NextGenerationHasNone(s.workers, s.gen);
      hide OneLive, NoneLive, Drop, WhiteToMove, Foreign, Takeable, Land, MoveCall, SyncLand, NewCall, FinishNew;
    }
  }

  lemma HandlerKeepsSafe(s: Session, e: Event)
    ensures Safe(s) && Enabled(s, e) ==> Safe(Step(s, e))
  {
    if Safe(s) && Enabled(s, e) {
      StepKeepsSafe(s, e);
    }
    hide Safe, Step;
  }

  /** In every reachable state at most one worker belongs to the current game, its presence implies
      `searching`, and no stored clock is negative. */
  lemma {:induction false} RunIsSafe(s: Session, trace: seq<Event>, t: Session)
    requires Safe(s) && Leads(s, trace, t)
    ensures Safe(t) && t.gen >= s.gen
    decreases |trace|
  {
    hide Safe, Enabled, Step;
    if trace != [] {
      StepKeepsSafe(s, trace[0]);
      RunIsSafe(Step(s, trace[0]), trace[1..], t);
    }
  }

  /** Every state the server can be in is safe. */
  lemma ReachableIsSafe(trace: seq<Event>, t: Session)
    requires Leads(INITIAL, trace, t)
    ensures Safe(t) && t.gen >= INITIAL.gen
  {
    InitialIsSafe();
    RunIsSafe(INITIAL, trace, t);
  }

  /** A worker of an older game writes nothing: no log, clock, anchor, result or flag. */
  lemma StaleWritesNothing(s: Session, i: nat, ok: bool, last: Reply, now: int)
    requires Safe(s) && i < |s.workers| && !Live(s.workers, s.gen, i)
    ensures Land(s, i, ok, last, now) == s.(workers := s.workers[..i] + s.workers[i + 1..])
    ensures s.workers[i].gen < s.gen
  {
  }

  // ---- who loses ----

  /** Resigning ends the game against the side the human plays, for the holder of the seat only. */
  lemma ResignerLoses(s: Session, pid: string)
    ensures
      var t := Resign(s, pid);
      if pid != "" && pid == s.owner && !s.over then
        t == s.(over := true, result := if s.humanWhite then "black_wins" else "white_wins", gen := s.gen + 1)
      else t == s
  {
  }

  /** A reply by which the engine ends the game itself. */
  predicate EndsByReply(s: Session, e: Event) {
    match e
    case SearchEnds(ok, last, _) => ok && last.gameOver
    case WorkerLands(_, ok, last, _) => ok && last.gameOver
    case _ => false
  }

  /** The clock of one side is at zero and the other side has won. */
  predicate LostOnTime(t: Session) {
    (t.white == 0 && t.result == "black_wins") || (t.black == 0 && t.result == "white_wins")
  }

  lemma AnsweredOnTime(s: Session, moves: seq<string>, book: bool, humanWhite: bool, last: Reply, now: int)
    requires !s.over && Answered(s, moves, book, humanWhite, last, now).over && !last.gameOver
    ensures LostOnTime(Answered(s, moves, book, humanWhite, last, now))
  {
  }

  /** A game ends by a reply of the engine that says so, by resignation, or by time. */
  lemma TimeLoses(s: Session, e: Event)
    requires Enabled(s, e) && !s.over && Step(s, e).over && !EndsByReply(s, e) && !e.PostResign?
    ensures LostOnTime(Step(s, e))
  {
    match e {
      case GetState(now) =>
        PollFlagsMover(s, now);
        hide Poll, Enabled, EndsByReply;
      case PostMove(r, now) =>
        LateMoveLoses(s, r, now);
        hide MoveCall, Enabled, EndsByReply;
      case SearchEnds(ok, last, now) =>
        var t := s.(call := Idle);
        if ok && s.call.gen == s.gen {
          hide Answered, LostOnTime;
          AnsweredOnTime(t, s.call.moves, s.call.book, s.humanWhite, last, now);
        }
      case WorkerLands(i, ok, last, now) =>
        var w, t := s.workers[i], Without(s, i);
        if w.gen == s.gen && ok {
          hide Answered;
          AnsweredOnTime(t, w.moves, w.book, w.humanWhite, last, now);
        }
      case _ =>
    }
  }

  /** A poll that ends the game ends it for the side to move. */
  lemma PollFlagsMover(s: Session, now: int)
    requires !s.over && Poll(s, now).over
    ensures
      var t := Poll(s, now);
      if |s.log| % 2 == 0 then t.white == 0 && t.black == s.black && t.result == "black_wins"
      else t.black == 0 && t.white == s.white && t.result == "white_wins"
  {
  }

  /** A poll ends a running game exactly if its turn has begun, it is not paused, and the mover has used
      up the clock. */
  lemma PollFlagsExactly(s: Session, now: int)
    requires !s.over
    ensures
      Poll(s, now).over <==>
      !s.paused && s.anchor != 0 && now - s.anchor >= if |s.log| % 2 == 0 then s.white else s.black
  {
  }

  /** A booked move ends a running game exactly if the human has used up the clock. */
  lemma MoveFlagsExactly(s: Session, r: Request, now: int)
    requires !s.over
    ensures MoveCall(s, r, now).over <==> Books(s, r) && now - s.anchor >= if s.humanWhite then s.white else s.black
  {
  }

  /** A booked move that comes too late loses for the human. */
  lemma LateMoveLoses(s: Session, r: Request, now: int)
    requires !s.over && MoveCall(s, r, now).over
    ensures Books(s, r) && MoveCall(s, r, now).log == r.moves
    ensures
      var t := MoveCall(s, r, now);
      if s.humanWhite then s.white <= now - s.anchor && t.white == 0 && t.black == s.black && t.result == "black_wins"
      else s.black <= now - s.anchor && t.black == 0 && t.white == s.white && t.result == "white_wins"
  {
  }

  /** A booked reply charges the engine's clock alone, credits the increment unless it has run out,
      and appends the engine's move; running out loses for the engine. */
  lemma ReplyIsCharged(s: Session, moves: seq<string>, humanWhite: bool, last: Reply, now: int)
    requires !s.over && last.valid && !last.gameOver && last.best != ""
    ensures
      var t := Answered(s, moves, true, humanWhite, last, now);
      var engine := if humanWhite then s.black else s.white;
      && (if humanWhite then t.white == s.white else t.black == s.black)
      && (if humanWhite then t.black else t.white) == (if engine <= last.elapsed then 0 else engine - last.elapsed + s.inc)
      && t.anchor == now && t.over == (engine <= last.elapsed)
      && (if t.over then t.log == moves && t.result == (if humanWhite then "white_wins" else "black_wins") else t.log == moves + [last.best])
  {
  }

  /** A reply that is not booked, or comes after the end, or does not hold, moves no clock; unbooked it
      starts no turn either. */
  lemma ReplyIsFree(s: Session, moves: seq<string>, book: bool, humanWhite: bool, last: Reply, now: int)
    requires !book || s.over || !last.valid || last.gameOver
    ensures
      var t := Answered(s, moves, book, humanWhite, last, now);
      && t.white == s.white && t.black == s.black
      && (!book || s.over ==> t.anchor == s.anchor && t.activity == s.activity)
      && (last.gameOver ==> t.over && t.result == last.gameState && t.log == moves)
      && (!last.gameOver ==> t.over == s.over && t.result == s.result)
      && t.log == if last.gameOver then moves else if last.valid && last.best != "" then moves + [last.best] else s.log
  {
  }

  /** A reply of the current game is written for the side the human had when it was asked for, and ends
      the search. */
  lemma LandingWrites(s: Session, i: nat, last: Reply, now: int)
    requires i < |s.workers| && s.workers[i].gen == s.gen && s.workers[i].book && !s.over
    requires last.valid && !last.gameOver && last.best != ""
    ensures
      var w, t := s.workers[i], Land(s, i, true, last, now);
      var engine := if w.humanWhite then s.black else s.white;
      && (if w.humanWhite then t.white == s.white else t.black == s.black)
      && (if w.humanWhite then t.black else t.white) == (if engine <= last.elapsed then 0 else engine - last.elapsed + s.inc)
      && t.workers == s.workers[..i] + s.workers[i + 1..] && !t.searching && t.anchor == now
      && t.over == (engine <= last.elapsed) && t.log == if t.over then w.moves else w.moves + [last.best]
  {
    ReplyIsCharged(Without(s, i), s.workers[i].moves, s.workers[i].humanWhite, last, now);
  }

  /** The blocking search: its reply is written if the game it was asked in is still on, and dropped
      otherwise. */
  lemma CallWrites(s: Session, last: Reply, now: int)
    requires s.call.InSync?
    ensures s.call.gen != s.gen ==> SyncLand(s, true, last, now) == s.(call := Idle)
    ensures
      s.call.gen == s.gen && s.call.book && !s.over && last.valid && !last.gameOver && last.best != "" ==>
      var t := SyncLand(s, true, last, now);
      var engine := if s.humanWhite then s.black else s.white;
      && (if s.humanWhite then t.white == s.white else t.black == s.black)
      && (if s.humanWhite then t.black else t.white) == (if engine <= last.elapsed then 0 else engine - last.elapsed + s.inc)
      && t.anchor == now && t.over == (engine <= last.elapsed)
      && t.log == if t.over then s.call.moves else s.call.moves + [last.best]
  {
    if s.call.gen == s.gen && s.call.book && !s.over && last.valid && !last.gameOver && last.best != "" {
      ReplyIsCharged(s.(call := Idle), s.call.moves, s.humanWhite, last, now);
    }
  }

  /** A search that timed out charges nobody: the turn begins again now. */
  lemma TimeoutReanchors(s: Session, i: nat, last: Reply, now: int)
    ensures i < |s.workers| && s.workers[i].gen == s.gen ==>
      Land(s, i, false, last, now) == s.(workers := s.workers[..i] + s.workers[i + 1..], anchor := now, searching := false)
    ensures s.call.InSync? ==> SyncLand(s, false, last, now) == s.(call := Idle, anchor := now)
  {
  }

  /** A request whose moves and answer the log already holds changes nothing, and so does one of a
      stranger, during a pause or during a search. */
  lemma RefusedChangesNothing(s: Session, r: Request, now: int)
    requires s.paused || s.searching || (r.pid != "" && s.owner != "" && r.pid != s.owner)
             || (r.answered && exists best :: s.log == r.moves + [best])
    ensures MoveCall(s, r, now) == s
  {
    if r.answered {
      if best :| s.log == r.moves + [best] {
        assert s.log[..|r.moves|] == r.moves;
      }
    }
  }

  /** A booked move in time: the other clock stays, the turn begins now, the number is remembered, and
      the engine starts, in a worker of this generation or in the call itself. */
  lemma MoveStartsEngine(s: Session, r: Request, now: int)
    requires Books(s, r) && !MoveCall(s, r, now).over
    ensures
      var t := MoveCall(s, r, now);
      && t.anchor == now && t.lastSeq == r.seq_ && t.gen == s.gen && t.result == s.result
      && (if s.humanWhite then t.black == s.black else t.white == s.white)
      && if r.async then t.searching && t.log == r.moves && t.workers == s.workers + [Worker(s.gen, r.moves, true, s.humanWhite)] && t.call == s.call
         else t.call == InSync(r.moves, true, s.gen) && t.log == s.log && t.workers == s.workers
  {
  }

  // ---- new games, the seat and the waitlist ----

  /** A request for a new game is taken up if its sender holds the seat, the seat is free or the sender
      unnamed, or the sender is first in the waitlist and the holder has finished or been idle. */
  lemma SeatDecision(s: Session, setup: Setup, now: int)
    ensures
      var t := NewCall(s, setup, now);
      if setup.pid == "" || s.owner == "" || setup.pid == s.owner
         || (s.queue != [] && s.queue[0] == setup.pid && !s.paused && (s.over || s.activity == 0 || now - s.activity > 180000))
      then t == s.(gen := s.gen + 1, call := InNew(setup))
      else t == s
  {
  }

  /** A new game starts empty, unpaused and unfinished, with both clocks at its base time; a base or
      increment given alone leaves the other as it was. */
  lemma NewGameIsFresh(s: Session, now: int)
    requires s.call.InNew?
    ensures
      var t, setup := FinishNew(s, true, now), s.call.setup;
      && t.log == [] && !t.over && t.result == "" && t.lastSeq == 0 && !t.paused && !t.searching && t.call == Idle
      && t.white == t.base && t.black == t.base && t.anchor == now && t.activity == now
      && t.humanWhite == setup.humanWhite && t.owner == setup.pid && t.gen == s.gen && t.workers == s.workers
      && t.base == (match (setup.base, setup.inc)
                    case (Some(b), _) => b
                    case (None, Some(_)) => s.base
                    case (None, None) => setup.preset.base)
      && t.inc == (match (setup.inc, setup.base)
                   case (Some(i), _) => i
                   case (None, Some(_)) => s.inc
                   case (None, None) => setup.preset.inc)
  {
  }

  predicate NoneTwice(queue: seq<string>) {
    forall i, j :: 0 <= i < j < |queue| ==> queue[i] != queue[j]
  }

  lemma {:induction false} DropAbsent(queue: seq<string>, pid: string)
    requires pid !in queue
    ensures Drop(queue, pid) == queue
  {
    if queue != [] {
      DropAbsent(queue[1..], pid);
      assert queue == [queue[0]] + queue[1..];
    }
  }

  lemma {:induction false} DropAt(queue: seq<string>, pid: string, i: nat)
    requires i < |queue| && queue[i] == pid && forall j :: 0 <= j < i ==> queue[j] != pid
    ensures Drop(queue, pid) == queue[..i] + queue[i + 1..]
  {
    if i > 0 {
      DropAt(queue[1..], pid, i - 1);
      assert queue[..i] == [queue[0]] + queue[1..][..i - 1] && queue[i + 1..] == queue[1..][i..];
    } else {
      assert queue[..0] + queue[1..] == queue[1..];
    }
  }

  /** Leaving takes out exactly the one who leaves; the others keep their order. */
  lemma DropMeaning(queue: seq<string>, pid: string)
    requires NoneTwice(queue)
    ensures pid !in queue ==> Drop(queue, pid) == queue
    ensures forall i :: 0 <= i < |queue| && queue[i] == pid ==> Drop(queue, pid) == queue[..i] + queue[i + 1..]
    ensures NoneTwice(Drop(queue, pid)) && pid !in Drop(queue, pid)
  {
    if pid !in queue {
      DropAbsent(queue, pid);
    } else {
      var i :| 0 <= i < |queue| && queue[i] == pid;
      DropAt(queue, pid, i);
      OneOut(queue, i);
    }
  }

  lemma OneOut(queue: seq<string>, i: nat)
    requires NoneTwice(queue) && i < |queue|
    ensures NoneTwice(queue[..i] + queue[i + 1..]) && queue[i] !in queue[..i] + queue[i + 1..]
  {
    var rest := queue[..i] + queue[i + 1..];
    forall j | 0 <= j < |rest| ensures rest[j] == queue[if j < i then j else j + 1] {
    }
  }

  /** The waitlist never names anyone twice; joining again goes to the end. */
  lemma QueueLaws(s: Session, pid: string)
    requires NoneTwice(s.queue) && pid != ""
    ensures NoneTwice(Join(s, pid).queue) && NoneTwice(Leave(s, pid).queue) && pid !in Leave(s, pid).queue
    ensures var q := Join(s, pid).queue; q[|q| - 1] == pid && q[..|q| - 1] == Leave(s, pid).queue
    ensures Join(s, pid) == s.(queue := Join(s, pid).queue) && Leave(s, pid) == s.(queue := Leave(s, pid).queue)
  {
    DropMeaning(s.queue, pid);
  }

  /** Who may give up the seat or have it given up: the holder, or anyone named when the game is not
      paused and has finished or been idle. */
  lemma YieldDecision(s: Session, pid: string, now: int)
    ensures
      MayYield(s, pid, now) <==>
      pid != "" && (pid == s.owner || (!s.paused && (s.over || s.activity == 0 || now - s.activity > 180000)))
    ensures !MayYield(s, pid, now) ==> YieldCall(s, pid, now) == s
  {
  }

  /** Pausing and resuming: by the holder of the seat, or anyone named when it is free, a running game
      with no search going on; nothing but the pause and its beginning change, and on resuming the
      anchor. */
  lemma PauseAndResume(s: Session, pid: string, now: int)
    ensures Pause(s, pid, now) ==
      if pid != "" && (s.owner == "" || pid == s.owner) && !s.paused && !s.searching && !s.over then s.(paused := true, pauseStart := now)
      else s
    ensures Resume(s, pid, now) ==
      if pid != "" && (s.owner == "" || pid == s.owner) && s.paused then s.(paused := false, pauseStart := 0, anchor := s.anchor + now - s.pauseStart)
      else s
  {
  }

  /** A free seat: the holder or anyone once it may be taken; a finished game is cleared with it. */
  lemma YieldFreesSeat(s: Session, pid: string, now: int, later: int)
    requires MayYield(s, pid, now)
    ensures YieldCall(s, pid, now).owner == ""
    ensures !s.over ==> YieldCall(s, pid, now) == s.(owner := "")
    ensures s.over ==>
      var t := YieldCall(s, pid, now);
      t.call.InYield? && t.gen == s.gen + 1 &&
      var u := FinishYield(t, later);
      u.log == [] && !u.over && u.result == "" && u.lastSeq == 0 && !u.paused && !u.searching && u.call == Idle &&
      u.white == s.base && u.black == s.base && u.anchor == later
  {
  }

  // ---- pause ----

  /** The steps that end a pause: resume, a new game installed, a finished game cleared. */
  predicate Releases(s: Session, e: Event) {
    e.PostResume? || e.NewEnds? || e.YieldEnds? || (e.PostYield? && s.over)
  }

  lemma PausedStep(s: Session, e: Event)
    requires Safe(s) && Enabled(s, e) && s.paused && !Releases(s, e)
    ensures
      var t := Step(s, e);
      t.paused && t.log == s.log && t.white == s.white && t.black == s.black && t.anchor == s.anchor && t.pauseStart == s.pauseStart
  {
    if e.WorkerLands? {
      assert !Live(s.workers, s.gen, e.i);
    }
    hide OneLive, NoneLive, Drop, WhiteToMove, Foreign, Takeable, SetClock, Answered, AlreadyAnswered, Started;
  }

  ghost predicate NeverReleased(s: Session, trace: seq<Event>)
    decreases |trace|
  {
    trace != [] ==> Enabled(s, trace[0]) && !Releases(s, trace[0]) && NeverReleased(Step(s, trace[0]), trace[1..])
  }

  /** From a pause until a resume, a new game or a reset, the log, both clocks and the turn anchor
      do not change, whatever is requested and whichever workers land. */
  lemma {:induction false} PauseFreezes(s: Session, trace: seq<Event>, t: Session)
    requires Safe(s) && s.paused && Leads(s, trace, t) && NeverReleased(s, trace)
    ensures t.paused && t.log == s.log && t.white == s.white && t.black == s.black && t.anchor == s.anchor && t.pauseStart == s.pauseStart
    decreases |trace|
  {
    hide Safe, Enabled, Step, Releases;
    if trace != [] {
      PausedStep(s, trace[0]);
      StepKeepsSafe(s, trace[0]);
      PauseFreezes(Step(s, trace[0]), trace[1..], t);
    }
  }

  // ---- where the time goes ----

  function Time(e: Event): int {
    match e
    case GetState(now) => now case PostMove(_, now) => now case SearchEnds(_, _, now) => now
    case WorkerLands(_, _, _, now) => now case PostNew(_, now) => now case NewEnds(_, now) => now
    case PostYield(_, now) => now case YieldEnds(now) => now case PostResign(_, now) => now
    case PostPause(_, now) => now case PostResume(_, now) => now
    case PostQueue(_, now) => now case PostUnqueue(_, now) => now
  }

  /** Wall time the session spends paused, from `since` over the events of a trace to `until`. */
  ghost function PausedTime(s: Session, trace: seq<Event>, since: int, until: int): int
    decreases |trace|
  {
    if trace == [] then (if s.paused then until - since else 0)
    else if !Enabled(s, trace[0]) then 0
    else
      (if s.paused then Time(trace[0]) - since else 0) + PausedTime(Step(s, trace[0]), trace[1..], Time(trace[0]), until)
  }

  /** Steps within one turn: they neither book a move nor answer one nor start a new game. */
  predicate WithinTurn(s: Session, e: Event) {
    match e
    case PostMove(r, now) => MoveCall(s, r, now) == s
    case SearchEnds(_, _, _) => false
    case WorkerLands(i, _, _, _) => !Live(s.workers, s.gen, i)
    case PostNew(setup, now) => NewCall(s, setup, now) == s
    case NewEnds(_, _) => false
    case PostYield(_, _) => !s.over
    case YieldEnds(_) => false
    case _ => true
  }

  ghost predicate OneTurn(s: Session, trace: seq<Event>)
    decreases |trace|
  {
    trace != [] ==> Enabled(s, trace[0]) && WithinTurn(s, trace[0]) && OneTurn(Step(s, trace[0]), trace[1..])
  }

  /** The anchor as it would be if a running pause ended at `now`. */
  function AnchorAt(s: Session, now: int): int {
    if s.paused then s.anchor + (now - s.pauseStart) else s.anchor
  }

  lemma TurnStep(s: Session, e: Event)
    requires Enabled(s, e) && WithinTurn(s, e)
    ensures
      var t := Step(s, e);
      && AnchorAt(t, Time(e)) == AnchorAt(s, Time(e))
      && (s.over ==> t.over) && (!t.over ==> t.white == s.white && t.black == s.black)
      && t.humanWhite == s.humanWhite && t.inc == s.inc
  {
    hide Drop, WhiteToMove, Foreign, Takeable, Answered, Started;
  }

  /** However polls, pauses, resumes and refused requests interleave, the anchor drifts by exactly
      the time paused, and no clock moves while the game goes on. */
  lemma {:induction false} TurnConserves(s: Session, trace: seq<Event>, t: Session, since: int, until: int)
    requires Leads(s, trace, t) && OneTurn(s, trace)
    ensures AnchorAt(t, until) == AnchorAt(s, since) + PausedTime(s, trace, since, until)
    ensures (s.over ==> t.over) && (!t.over ==> t.white == s.white && t.black == s.black)
    ensures t.humanWhite == s.humanWhite && t.inc == s.inc
    decreases |trace|
  {
    hide Enabled, Step, WithinTurn, Time;
    if trace != [] {
      TurnStep(s, trace[0]);
      TurnConserves(Step(s, trace[0]), trace[1..], t, Time(trace[0]), until);
    }
  }

  /** A booked move is charged the wall time since its turn began minus all the time paused, floored
      at zero, then credited the increment unless the flag fell; the other clock is untouched. */
  lemma MoveIsChargedItsTurn(s: Session, trace: seq<Event>, t: Session, r: Request, now: int)
    requires !s.paused && Leads(s, trace, t) && OneTurn(s, trace) && Books(t, r)
    ensures
      var spent := now - s.anchor - PausedTime(s, trace, s.anchor, now);
      var u := MoveCall(t, r, now);
      && Clock(u, s.humanWhite) == (if spent >= Clock(s, s.humanWhite) then 0 else Clock(s, s.humanWhite) - spent + s.inc)
      && Clock(u, !s.humanWhite) == Clock(s, !s.humanWhite)
      && u.anchor == now && (u.over <==> spent >= Clock(s, s.humanWhite))
  {
    TurnConserves(s, trace, t, s.anchor, now);
    hide Leads, OneTurn, PausedTime, AlreadyAnswered;
  }

  /** A retried request with the same number is not charged twice. */
  lemma RetryIsFree(s: Session, r: Request, r': Request, now: int, later: int)
    requires Accepted(s, r) && r'.seq_ == r.seq_
    ensures
      var t := MoveCall(s, r, now);
      var u := MoveCall(t, r', later);
      u.white == t.white && u.black == t.black && u.anchor == t.anchor && u.over == t.over
  {
    hide AlreadyAnswered;
  }

  /** Polling changes the session only by declaring the mover's flag fallen, which zeroes that
      clock alone, and only once the unpaused time since the anchor has used it up. */
  lemma PollOnlyFlags(s: Session, now: int)
    ensures
      var t := Poll(s, now);
      || t == s
      || (&& t.over && !s.over && !s.paused && now - s.anchor >= Clock(s, WhiteToMove(s))
          && t == SetClock(s, WhiteToMove(s), 0).(over := true, result := if WhiteToMove(s) then "black_wins" else "white_wins"))
  {
  }

  /** The clock shown during a pause is the time the mover has left at any moment after resuming,
      plus the time since the resume. */
  lemma PauseShowsTimeLeft(s: Session, pid: string, at: int, resumed: int, later: int)
    requires !s.paused && s.anchor != 0 && Pause(s, pid, at) != s
    requires Clock(s, WhiteToMove(s)) - (at - s.anchor) >= 0
    ensures
      var p := Pause(s, pid, at);
      var q := Resume(p, pid, resumed);
      !q.paused && Clock(q, WhiteToMove(q)) - (later - q.anchor) == Shown(p, resumed, WhiteToMove(s)) - (later - resumed)
  {
  }

  // ---- the seat ----

  /** Who sent a request; nobody for the steps the server takes itself. */
  function Sender(e: Event): Option<string> {
    match e
    case PostMove(r, _) => Some(r.pid) case PostNew(setup, _) => Some(setup.pid) case PostYield(pid, _) => Some(pid)
    case PostResign(pid, _) => Some(pid) case PostPause(pid, _) => Some(pid) case PostResume(pid, _) => Some(pid)
    case PostQueue(pid, _) => Some(pid) case PostUnqueue(pid, _) => Some(pid)
    case _ => None
  }

  /** The holder's game is not up for grabs: it is paused, or it runs and was active lately. */
  predicate SeatHeld(s: Session, now: int) {
    s.owner != "" && (s.paused || (!s.over && s.activity != 0 && now - s.activity <= IDLE_TAKEOVER))
  }

  /** While the seat is held, no named stranger can move, resign, pause, resume, start a game or
      free the seat: all such a request can change is the waitlist. */
  lemma StrangersOnlyQueue(s: Session, e: Event)
    requires Enabled(s, e) && Sender(e).Some? && Sender(e).value != "" && Sender(e).value != s.owner
    requires SeatHeld(s, Time(e))
    ensures Step(s, e) == s.(queue := Step(s, e).queue)
  {
    hide Drop, AlreadyAnswered, SetClock, Started;
  }

  // ---- what does not hold ----

  lemma {:induction false} LeadsThen(s: Session, trace: seq<Event>, t: Session, e: Event)
    requires Leads(s, trace, t) && Enabled(t, e)
    ensures Leads(s, trace + [e], Step(t, e))
    decreases |trace|
  {
    hide Enabled, Step;
    if trace == [] {
      assert ([e])[1..] == [] && trace + [e] == [e];
    } else {
      LeadsThen(Step(s, trace[0]), trace[1..], t, e);
      assert (trace + [e])[1..] == trace[1..] + [e];
    }
  }

  const PLAYER: Setup := Setup("p", true, None, None, Preset(START_BASE, START_INC))

  /** A game of `p` at time 1. */
  function Begun(): Session {
    FinishNew(NewCall(INITIAL, PLAYER, 0), true, 1)
  }

  lemma BeginRun() returns (trace: seq<Event>)
    ensures Leads(INITIAL, trace, Begun())
    ensures
      var s := Begun();
      && s.humanWhite && s.base == START_BASE && s.inc == START_INC && s.white == START_BASE && s.black == START_BASE && s.log == []
      && !s.over && s.lastSeq == 0 && s.anchor == 1 && !s.paused && !s.searching && s.gen == 1 && s.owner == "p" && s.workers == [] && s.call.Idle?
  {
    var e, f := PostNew(PLAYER, 0), NewEnds(true, 1);
    LeadsThen(INITIAL, [], INITIAL, e);
    LeadsThen(INITIAL, [] + [e], Step(INITIAL, e), f);
    trace := [] + [e] + [f];
  }

  /** A result is not final: after a flag fall another move is taken, and a search that ends the
      game overwrites the winner. */
  lemma ResultCanChange()
    ensures exists trace: seq<Event>, s: Session, e: Event ::
      Leads(INITIAL, trace, s) && s.over && Enabled(s, e) && Step(s, e).over && Step(s, e).result != s.result
  {
    var trace := BeginRun();
    var s := Begun();
    var e, f := GetState(400000), PostMove(Request("p", ["e2e4"], 1, false, false), 400001);
    hide Begun;
    var t := Step(s, e);
    assert t == s.(over := true, white := 0, result := "black_wins");
    var u := Step(t, f);
    assert u.over && u.result == "black_wins" && u.call.InSync? && u.call.gen == u.gen;
    LeadsThen(INITIAL, trace, s, e);
    LeadsThen(INITIAL, trace + [e], t, f);
    OverwriteDraw(u);
    assert Leads(INITIAL, trace + [e] + [f], u);
  }

  lemma OverwriteDraw(u: Session)
    requires u.over && u.result == "black_wins" && u.call.InSync? && u.call.gen == u.gen
    ensures exists e :: Enabled(u, e) && Step(u, e).over && Step(u, e).result != u.result
  {
    var e := SearchEnds(true, Reply(true, true, "draw", "", 0), 400002);
    assert Step(u, e).result == "draw" && |"draw"| != |"black_wins"|;
    assert Enabled(u, e) && Step(u, e).over && Step(u, e).result != u.result;
  }

  /** The steps that replace a result: a search reply that names another end of the game, a new game
      installed, a finished game cleared. */
  predicate Replaces(s: Session, e: Event) {
    match e
    case SearchEnds(ok, last, _) => ok && s.call.InSync? && s.call.gen == s.gen && last.gameOver && last.gameState != s.result
    case WorkerLands(i, ok, last, _) => ok && Live(s.workers, s.gen, i) && last.gameOver && last.gameState != s.result
    case NewEnds(ok, _) => ok
    case PostYield(pid, now) => MayYield(s, pid, now)
    case _ => false
  }

  /** A finished game keeps its result through a step exactly when the step is not one of those. */
  lemma ResultKeptExactly(s: Session, e: Event)
    requires s.over && Enabled(s, e)
    ensures Step(s, e).over && Step(s, e).result == s.result <==> !Replaces(s, e)
  {
    if e.WorkerLands? {
      var w := s.workers[e.i];
      AnsweredWhenOver(Without(s, e.i), w.moves, w.book, w.humanWhite, e.last, e.now);
    } else if e.SearchEnds? {
      AnsweredWhenOver(s.(call := Idle), s.call.moves, s.call.book, s.humanWhite, e.last, e.now);
    }
    hide Drop, Accepted, WhiteToMove, Takeable, SetClock, Answered, Charged, Foreign;
  }

  lemma AnsweredWhenOver(s: Session, moves: seq<string>, book: bool, humanWhite: bool, last: Reply, now: int)
    requires s.over
    ensures Answered(s, moves, book, humanWhite, last, now).over
    ensures Answered(s, moves, book, humanWhite, last, now).result == if last.gameOver then last.gameState else s.result
  {
  }

  ghost predicate Matched(s: Session) {
    s.searching <==> !NoneLive(s.workers, s.gen)
  }

  /** `searching` keeps matching the presence of a current worker through a step exactly when the
      step does not start a new generation under a running search. */
  lemma SearchingMatchesExactly(s: Session, e: Event)
    requires Safe(s) && Matched(s) && Enabled(s, e)
    ensures Matched(Step(s, e)) <==> !(s.searching && Step(s, e).gen != s.gen)
  {
    NextGenerationHasNone(s.workers, s.gen);
    if e.WorkerLands? {
      LandingMatches(s, e.i, e.ok, e.last, e.now);
    } else if e.PostMove? {
      if Accepted(s, e.r) && e.r.async {
        var w := Worker(s.gen, e.r.moves, e.r.seq_ != s.lastSeq, s.humanWhite);
        assert Live(s.workers + [w], s.gen, |s.workers|);
      }
      hide NoneLive, Accepted, SetClock, Charged, Clock, Live;
    } else {
      hide OneLive, NoneLive, Drop, Takeable, SetClock, Foreign, Land, MoveCall, Answered, Charged;
    }
  }

  lemma LandingMatches(s: Session, i: nat, ok: bool, last: Reply, now: int)
    requires Safe(s) && Matched(s) && i < |s.workers|
    ensures Matched(Land(s, i, ok, last, now)) && Land(s, i, ok, last, now).gen == s.gen
  {
    var w, t := s.workers[i], Without(s, i);
    WithoutOne(s.workers, s.gen, i);
    OthersStay(s.workers, s.gen, i);
    AnsweredKeeps(t, w.moves, w.book, w.humanWhite, last, now);
    assert w.gen == s.gen <==> Live(s.workers, s.gen, i);
    hide OneLive, NoneLive, Answered, Live;
  }

  lemma OthersStay(workers: seq<Worker>, gen: int, i: nat)
    requires i < |workers|
    ensures !Live(workers, gen, i) && NoneLive(workers[..i] + workers[i + 1..], gen) ==> NoneLive(workers, gen)
    ensures Live(workers, gen, i) ==> !NoneLive(workers, gen)
  {
    var rest := workers[..i] + workers[i + 1..];
    if !Live(workers, gen, i) && NoneLive(rest, gen) {
      forall j ensures !Live(workers, gen, j) {
        assert j != i && 0 <= j < |workers| ==> !Live(rest, gen, if j < i then j else j - 1);
      }
    }
  }

  /** `searching` can outlive every current worker: a resignation during a search bumps the
      generation only. */
  lemma SearchingWithoutWorker()
    ensures exists trace: seq<Event>, s: Session ::
      Leads(INITIAL, trace, s) && s.searching && NoneLive(s.workers, s.gen)
  {
    var trace := BeginRun();
    var s := Begun();
    var e, f := PostMove(Request("p", ["e2e4"], 1, true, false), 2), PostResign("p", 3);
    hide Begun;
    var t := Step(s, e);
    assert t.searching && !t.over && t.owner == "p" && t.gen == 1 && t.call.Idle? && t.workers == [Worker(1, ["e2e4"], true, true)];
    var u := Step(t, f);
    LeadsThen(INITIAL, trace, s, e);
    LeadsThen(INITIAL, trace + [e], t, f);
    assert u.searching && NoneLive(u.workers, u.gen);
    hide Step, Leads;
  }

  // ---- the server ----

  /** The server's globals, changed in place by its handlers and workers. */
  class Server {
    var humanWhite: bool
    var base: int
    var inc: int
    var white: int
    var black: int
    var log: seq<string>
    var over: bool
    var result: string
    var lastSeq: int
    var anchor: int
    var paused: bool
    var pauseStart: int
    var searching: bool
    var gen: int
    var owner: string
    var queue: seq<string>
    var activity: int
    var workers: seq<Worker>
    var call: Call

    ghost function View(): Session
      reads this
    {
      Session(humanWhite, base, inc, white, black, log, over, result, lastSeq, anchor, paused, pauseStart,
              searching, gen, owner, queue, activity, workers, call)
    }

    /** `seat_takeable`. */
    predicate SeatTakeable(now: int)
      reads this
      ensures SeatTakeable(now) <==> Takeable(View(), now)
    {
      if paused then false else if over || activity == 0 then true else now - activity > IDLE_TAKEOVER
    }

    constructor ()
      ensures View() == INITIAL
    {
      humanWhite, base, inc, white, black := true, START_BASE, START_INC, START_BASE, START_BASE;
      log, over, result, lastSeq, anchor := [], false, "", 0, 0;
      paused, pauseStart, searching, gen := false, 0, false, 0;
      owner, queue, activity, workers, call := "", [], 0, [], Idle;
    }

    method SetClocks(w: int, b: int)
      modifies this`white, this`black
      ensures View() == old(View()).(white := w, black := b)
    {
      white, black := w, b;
    }

    method StartTurn(now: int)
      modifies this`anchor, this`activity
      ensures View() == old(View()).(anchor := now, activity := now)
    {
      anchor := now;
      activity := now;
    }

    method SetGame(moves: seq<string>, isOver: bool, outcome: string)
      modifies this`log, this`over, this`result
      ensures View() == old(View()).(log := moves, over := isOver, result := outcome)
    {
      log, over, result := moves, isOver, outcome;
    }

    method Unpause()
      modifies this`paused, this`pauseStart, this`searching
      ensures View() == old(View()).(paused := false, pauseStart := 0, searching := false)
    {
      paused, pauseStart, searching := false, 0, false;
    }

    method SetCall(c: Call)
      modifies this`call
      ensures View() == old(View()).(call := c)
    {
      call := c;
    }

    method NextGame(c: Call)
      modifies this`gen, this`lastSeq, this`call
      ensures View() == old(View()).(gen := old(gen) + 1, lastSeq := 0, call := c)
    {
      gen := gen + 1;
      lastSeq := 0;
      call := c;
    }

    method HandleState(now: int) returns (w: int, b: int)
      modifies this
      ensures View() == Poll(old(View()), now)
      ensures w == Shown(old(View()), now, true) && b == Shown(old(View()), now, false)
      ensures old(Safe(View()) && Enabled(View(), GetState(now))) ==> Safe(View())
    {
      hide Safe, Land, MoveCall, FinishNew, NewCall, YieldCall, FinishYield, SyncLand;
      HandlerKeepsSafe(View(), GetState(now));
      w, b := white, black;
      var whiteToMove := |log| % 2 == 0;
      if !paused && !over && anchor != 0 {
        var eff := (if whiteToMove then w else b) - (now - anchor);
        if eff <= 0 {
          over := true;
          result := if whiteToMove then "black_wins" else "white_wins";
          if whiteToMove {
            w := 0;
          } else {
            b := 0;
          }
          white, black := w, b;
        }
      } else if paused && anchor != 0 {
        var eff := (if whiteToMove then w else b) - (pauseStart - anchor);
        if eff < 0 {
          eff := 0;
        }
        if whiteToMove {
          w := eff;
        } else {
          b := eff;
        }
      }
    }

    /** Charge the human for the turn; true when the flag fell. */
    method ChargeHuman(now: int) returns (flags: bool)
      modifies this`white, this`black, this`anchor
      ensures flags <==> Clock(old(View()), humanWhite) - (now - old(anchor)) <= 0
      ensures View() == SetClock(old(View()), humanWhite, Charged(Clock(old(View()), humanWhite), now - old(anchor), inc)).(anchor := now)
    {
      var clock := (if humanWhite then white else black) - (now - anchor);
      flags := clock <= 0;
      clock := if flags then 0 else clock + inc;
      if humanWhite {
        white := clock;
      } else {
        black := clock;
      }
      anchor := now;
    }

    /** The guards of `/move`: seat, pause, running search, and a request already answered. */
    method Accepts(r: Request) returns (ok: bool)
      ensures ok <==> Accepted(View(), r)
    {
      if (r.pid != "" && owner != "" && r.pid != owner) || paused || searching {
        return false;
      }
      if log != [] && |log| == |r.moves| + 1 {
        if log[..|r.moves|] == r.moves && r.answered {
          return false;
        }
      }
      return true;
    }

    /** Remember the request number; true when it is new. */
    method NoteSequence(number: int) returns (book: bool)
      modifies this`lastSeq
      ensures book <==> number != old(lastSeq)
      ensures View() == old(View()).(lastSeq := number)
    {
      book := number != lastSeq;
      if book {
        lastSeq := number;
      }
    }

    method Forfeit(moves: seq<string>, now: int)
      modifies this`over, this`result, this`log, this`activity
      ensures View() == old(View()).(over := true, result := Wins(!humanWhite), log := moves, activity := now)
    {
      SetGame(moves, true, if humanWhite then "black_wins" else "white_wins");
      activity := now;
    }

    method HandleMove(r: Request, now: int)
      modifies this
      ensures View() == MoveCall(old(View()), r, now)
      ensures old(Safe(View()) && Enabled(View(), PostMove(r, now))) ==> Safe(View())
    {
      hide Safe;
      HandlerKeepsSafe(View(), PostMove(r, now));
      var ok := Accepts(r);
      if !ok {
        return;
      }
      hide AlreadyAnswered, Foreign, Started;
      var book := NoteSequence(r.seq_);
      if book && !over && r.moves != [] {
        var flags := ChargeHuman(now);
        if flags {
          Forfeit(r.moves, now);
          return;
        }
      }
      StartSearch(r, book);
    }

    /** Spawn a worker, or block. */
    method StartSearch(r: Request, book: bool)
      modifies this`searching, this`log, this`workers, this`call
      ensures View() == Started(old(View()), r, book)
    {
      if r.async {
        searching := true;
        log := r.moves;
        workers := workers + [Worker(gen, r.moves, book, humanWhite)];
      } else {
        call := InSync(r.moves, book, gen);
      }
    }

    /** Book a reply: the engine's clock, the anchor, the result and the log. */
    method BookReply(moves: seq<string>, book: bool, forWhite: bool, last: Reply, now: int)
      modifies this`white, this`black, this`anchor, this`activity, this`over, this`result, this`log
      ensures View() == Answered(old(View()), moves, book, forWhite, last, now)
    {
      var flags := false;
      if book && !over {
        if last.valid && !last.gameOver {
          var clock := (if forWhite then black else white) - last.elapsed;
          if clock <= 0 {
            clock, flags := 0, true;
          } else {
            clock := clock + inc;
          }
          SetClocks(if forWhite then white else clock, if forWhite then clock else black);
        }
        StartTurn(now);
      }
      if last.gameOver {
        SetGame(moves, true, last.gameState);
      } else if flags {
        SetGame(moves, true, if forWhite then "white_wins" else "black_wins");
      } else if last.valid && last.best != "" {
        log := moves + [last.best];
      }
    }

    method WorkerEnds(i: nat, ok: bool, last: Reply, now: int)
      requires i < |workers|
      modifies this
      ensures View() == Land(old(View()), i, ok, last, now)
      ensures old(Safe(View()) && Enabled(View(), WorkerLands(i, ok, last, now))) ==> Safe(View())
    {
      hide Safe, Answered, MoveCall, Poll, FinishNew, NewCall, YieldCall, FinishYield, SyncLand;
      HandlerKeepsSafe(View(), WorkerLands(i, ok, last, now));
      var w := workers[i];
      RetireWorker(i);
      if !ok {
        if w.gen == gen {
          anchor := now;
          searching := false;
        }
        return;
      }
      if w.gen != gen {
        return;
      }
      BookReply(w.moves, w.book, w.humanWhite, last, now);
      StopSearching();
    }

    method RetireWorker(i: nat)
      requires i < |workers|
      modifies this`workers
      ensures View() == Without(old(View()), i)
    {
      workers := workers[..i] + workers[i + 1..];
    }

    method StopSearching()
      modifies this`searching
      ensures View() == old(View()).(searching := false)
    {
      searching := false;
    }

    method MoveReturns(ok: bool, last: Reply, now: int)
      requires call.InSync?
      modifies this
      ensures View() == SyncLand(old(View()), ok, last, now)
      ensures old(Safe(View()) && Enabled(View(), SearchEnds(ok, last, now))) ==> Safe(View())
    {
      hide Safe;
      HandlerKeepsSafe(View(), SearchEnds(ok, last, now));
      var pending := call;
      call := Idle;
      if !ok {
        anchor := now;
        return;
      }
      if pending.gen != gen {
        return;
      }
      BookReply(pending.moves, pending.book, humanWhite, last, now);
    }

    method HandleNew(setup: Setup, now: int)
      modifies this
      ensures View() == NewCall(old(View()), setup, now)
      ensures old(Safe(View()) && Enabled(View(), PostNew(setup, now))) ==> Safe(View())
    {
      hide Safe, Land, MoveCall, Poll, FinishNew, YieldCall, FinishYield, SyncLand;
      HandlerKeepsSafe(View(), PostNew(setup, now));
      if setup.pid != "" && owner != "" && setup.pid != owner {
        var head := queue != [] && queue[0] == setup.pid;
        if !head || !SeatTakeable(now) {
          return;
        }
      }
      gen := gen + 1;
      call := InNew(setup);
    }

    method Unqueue(pid: string)
      modifies this`queue
      ensures queue == Drop(old(queue), pid)
    {
      var i := 0;
      ghost var all := queue;
      while i < |queue|
        invariant 0 <= i <= |queue| && queue == all
        invariant Drop(all, pid) == all[..i] + Drop(all[i..], pid)
        decreases |queue| - i
      {
        if queue[i] == pid {
          queue := queue[..i] + queue[i + 1..];
          return;
        }
        DropOn(all, pid, i);
        i := i + 1;
      }
    }

    /** Custom base and increment, each kept when only the other is given, or the preset. */
    method ChooseControl(setup: Setup)
      modifies this`humanWhite, this`base, this`inc
      ensures
        var custom := setup.base.Some? || setup.inc.Some?;
        View() == old(View()).(
          humanWhite := setup.humanWhite,
          base := if setup.base.Some? then setup.base.value else if custom then old(base) else setup.preset.base,
          inc := if setup.inc.Some? then setup.inc.value else if custom then old(inc) else setup.preset.inc)
    {
      humanWhite := setup.humanWhite;
      if setup.base.Some? {
        base := setup.base.value;
      }
      if setup.inc.Some? {
        inc := setup.inc.value;
      }
      if setup.base.None? && setup.inc.None? {
        base, inc := setup.preset.base, setup.preset.inc;
      }
    }

    method TakeSeat(pid: string)
      modifies this`owner, this`queue
      ensures View() == old(View()).(owner := pid, queue := if pid != "" then Drop(old(queue), pid) else old(queue))
    {
      owner := pid;
      if pid != "" {
        Unqueue(pid);
      }
    }

    method ClearSequence()
      modifies this`lastSeq
      ensures View() == old(View()).(lastSeq := 0)
    {
      lastSeq := 0;
    }

    method NewReturns(ok: bool, now: int)
      requires call.InNew?
      modifies this
      ensures View() == FinishNew(old(View()), ok, now)
      ensures old(Safe(View()) && Enabled(View(), NewEnds(ok, now))) ==> Safe(View())
    {
      hide Safe;
      HandlerKeepsSafe(View(), NewEnds(ok, now));
      var setup := call.setup;
      SetCall(Idle);
      if !ok {
        return;
      }
      ChooseControl(setup);
      SetClocks(base, base);
      SetGame([], false, "");
      ClearSequence();
      StartTurn(now);
      Unpause();
      TakeSeat(setup.pid);
    }

    method HandleYield(pid: string, now: int)
      modifies this
      ensures View() == YieldCall(old(View()), pid, now)
      ensures old(Safe(View()) && Enabled(View(), PostYield(pid, now))) ==> Safe(View())
    {
      hide Safe;
      HandlerKeepsSafe(View(), PostYield(pid, now));
      if pid == "" || !(pid == owner || SeatTakeable(now)) {
        return;
      }
      owner := "";
      if over {
        NextGame(InYield);
        SetGame([], false, "");
      }
    }

    method YieldReturns(now: int)
      requires call.InYield?
      modifies this
      ensures View() == FinishYield(old(View()), now)
      ensures old(Safe(View()) && Enabled(View(), YieldEnds(now))) ==> Safe(View())
    {
      hide Safe;
      HandlerKeepsSafe(View(), YieldEnds(now));
      SetCall(Idle);
      SetClocks(base, base);
      anchor := now;
      Unpause();
    }

    method HandleResign(pid: string)
      modifies this
      ensures View() == Resign(old(View()), pid)
      ensures old(Safe(View()) && Enabled(View(), PostResign(pid, 0))) ==> Safe(View())
    {
      hide Safe;
      HandlerKeepsSafe(View(), PostResign(pid, 0));
      if pid == "" || (owner != "" && pid != owner) || over || owner == "" {
        return;
      }
      over := true;
      result := if humanWhite then "black_wins" else "white_wins";
      gen := gen + 1;
    }

    method HandlePause(pid: string, now: int)
      modifies this
      ensures View() == Pause(old(View()), pid, now)
      ensures old(Safe(View()) && Enabled(View(), PostPause(pid, now))) ==> Safe(View())
      ensures log == old(log) && white == old(white) && black == old(black) && anchor == old(anchor)
    {
      hide Safe;
      HandlerKeepsSafe(View(), PostPause(pid, now));
      if pid == "" || (owner != "" && pid != owner) || paused || searching || over {
        return;
      }
      pauseStart := now;
      paused := true;
    }

    method HandleResume(pid: string, now: int)
      modifies this
      ensures View() == Resume(old(View()), pid, now)
      ensures old(Safe(View()) && Enabled(View(), PostResume(pid, now))) ==> Safe(View())
      ensures log == old(log) && white == old(white) && black == old(black)
      ensures AnchorAt(View(), now) == AnchorAt(old(View()), now)
    {
      hide Safe;
      HandlerKeepsSafe(View(), PostResume(pid, now));
      if pid == "" || (owner != "" && pid != owner) || !paused {
        return;
      }
      var pausedFor := now - pauseStart;
      anchor := anchor + pausedFor;
      paused := false;
      pauseStart := 0;
    }

    method HandleQueue(pid: string)
      modifies this
      ensures View() == Join(old(View()), pid)
    {
      if pid != "" {
        Unqueue(pid);
        queue := queue + [pid];
      }
    }

    method HandleUnqueue(pid: string)
      modifies this
      ensures View() == Leave(old(View()), pid)
    {
      if pid != "" {
        Unqueue(pid);
      }
    }
  }
}
