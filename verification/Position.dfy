/** The engine's position object: six piece boards, two colour boards and a history of records,
    updated in place. Its methods are proved against the mailbox rules of `Rules`. */
module Positions {
  import opened Types
  import opened Folds
  import opened Lookups
  import opened Rules
  import opened Legality
  import opened Pins
  import opened Repetition

  // ---- bit operations against mailbox operations ----

  lemma PutBits(cells: Cells, s: Square, p: Piece)
    requires s !in cells
    ensures forall k: PieceType ::
      OfKind(Put(cells, s, p), k) == if k == p.kind then OfKind(cells, k) + {s} else OfKind(cells, k)
    ensures forall c: Color ::
      Side(Put(cells, s, p), c) == if c == p.color then Side(cells, c) + {s} else Side(cells, c)
  {
  }

  lemma RemoveBits(cells: Cells, s: Square)
    requires s in cells
    ensures forall k: PieceType ::
      OfKind(Remove(cells, s), k) == if k == cells[s].kind then OfKind(cells, k) - {s} else OfKind(cells, k)
    ensures forall c: Color ::
      Side(Remove(cells, s), c) == if c == cells[s].color then Side(cells, c) - {s} else Side(cells, c)
  {
  }

  lemma RelocateBits(cells: Cells, from: Square, to: Square)
    requires from in cells && to !in cells
    ensures forall k: PieceType ::
      OfKind(Relocate(cells, from, to), k) ==
      if k == cells[from].kind then Xor(OfKind(cells, k), Xor({from}, {to})) else OfKind(cells, k)
    ensures forall c: Color ::
      Side(Relocate(cells, from, to), c) ==
      if c == cells[from].color then Xor(Side(cells, c), Xor({from}, {to})) else Side(cells, c)
  {
  }

  class Position {
    const typeBb: array<Bitboard>
    const colorBb: array<Bitboard>
    const z: Randoms
    var stm: Color
    var fullmoves: int
    var ply: int
    var history: seq<State>

    /** The mailbox the boards encode. */
    ghost var cells: Cells

    ghost predicate Encodes()
      reads this`cells, typeBb, colorBb
    {
      && typeBb.Length == 6 && colorBb.Length == 2 && typeBb != colorBb
      && (forall k: PieceType :: typeBb[k] == OfKind(cells, k))
      && (forall c: Color :: colorBb[c] == Side(cells, c))
    }

    ghost predicate Valid()
      reads this, typeBb, colorBb
    {
      Encodes() && |history| == ply + 1 && history != []
    }

    ghost function View(): Pos
      reads this
    {
      Pos(cells, stm, fullmoves, history)
    }

    /** An empty board with one blank record. */
    constructor Empty(z: Randoms)
      ensures Valid() && fresh(typeBb) && fresh(colorBb) && this.z == z
      ensures View() == Pos(map[], WHITE, 0, [State(0, None, None, None, Untyped, {}, 0)])
    {
      var types := new Bitboard[6](_ => {});
      var colors := new Bitboard[2](_ => {});
      this.z := z;
      typeBb, colorBb := types, colors;
      stm, fullmoves, ply := WHITE, 0, 0;
      history := [State(0, None, None, None, Untyped, {}, 0)];
      cells := map[];
    }

    method PutPiece(s: Square, k: PieceType, c: Color)
      requires Encodes() && s !in cells
      modifies this`cells, typeBb, colorBb
      ensures Encodes() && cells == Put(old(cells), s, Piece(k, c))
    {
      PutBits(cells, s, Piece(k, c));
      typeBb[k] := typeBb[k] + {s};
      colorBb[c] := colorBb[c] + {s};
      cells := Put(cells, s, Piece(k, c));
    }

    method RemovePiece(s: Square, k: PieceType, c: Color)
      requires Encodes() && Holds(cells, s, k, c)
      modifies this`cells, typeBb, colorBb
      ensures Encodes() && cells == Remove(old(cells), s)
    {
      RemoveBits(cells, s);
      typeBb[k] := typeBb[k] - {s};
      colorBb[c] := colorBb[c] - {s};
      cells := Remove(cells, s);
    }

    method MovePiece(from: Square, to: Square, k: PieceType, c: Color)
      requires Encodes() && Holds(cells, from, k, c) && to !in cells
      modifies this`cells, typeBb, colorBb
      ensures Encodes() && cells == Relocate(old(cells), from, to)
    {
      RelocateBits(cells, from, to);
      var mask := Xor({from}, {to});
      typeBb[k] := Xor(typeBb[k], mask);
      colorBb[c] := Xor(colorBb[c], mask);
      cells := Relocate(cells, from, to);
    }

    method PieceTypeOn(s: Square) returns (r: Option<PieceType>)
      requires Encodes()
      ensures r == TypeOn(cells, s)
    {
      for k := 0 to 6
        invariant s in cells ==> k <= cells[s].kind
      {
        if s in typeBb[k] {
          return Some(k);
        }
      }
      return None;
    }

    method ColorOf(s: Square) returns (r: Option<Color>)
      requires Encodes()
      ensures r == if s in cells then Some(cells[s].color) else None
    {
      for c := 0 to 2
        invariant s in cells ==> c <= cells[s].color
      {
        if s in colorBb[c] {
          return Some(c);
        }
      }
      return None;
    }

    /** The inner loop of `calculate_hash`: fold the keys of one colour and type into `hash`. */
    method HashKind(hash: Word, k: PieceType, c: Color) returns (r: Word)
      requires Encodes()
      ensures r == Xor(hash, XorSum(KeyOf(z), cells, OfKind(cells, k) * Side(cells, c)))
    {
      ghost var f := KeyOf(z);
      var bb := typeBb[k] * colorBb[c];
      r := hash;
      while bb != {}
        invariant bb <= OfKind(cells, k) * Side(cells, c)
        invariant Xor(r, XorSum(f, cells, bb)) == Xor(hash, XorSum(f, cells, OfKind(cells, k) * Side(cells, c)))
        decreases bb
      {
        var s := Lowest(bb);
        XorTake(f, cells, bb, s);
        XorLaws(r, PieceKey(z, s, Piece(k, c)), XorSum(f, cells, bb - {s}));
        r := Xor(r, PieceKey(z, s, Piece(k, c)));
        bb := bb - {s};
      }
      XorLaws(r, {}, {});
    }

    method HashPieces() returns (hash: Word)
      requires Encodes()
      ensures hash == XorTotal(KeyOf(z), cells)
    {
      hash := {};
      ghost var done: Bitboard := {};
      for c := 0 to 2
        invariant done == set s | s in cells && cells[s].color < c
        invariant hash == XorSum(KeyOf(z), cells, done)
      {
        for k := 0 to 6
          invariant done == set s | s in cells && (cells[s].color < c || (cells[s].color == c && cells[s].kind < k))
          invariant hash == XorSum(KeyOf(z), cells, done)
        {
          hash := HashKind(hash, k, c);
          XorUnion(KeyOf(z), cells, done, OfKind(cells, k) * Side(cells, c));
          done := done + OfKind(cells, k) * Side(cells, c);
        }
      }
      assert done == cells.Keys;
    }

    /** `calculate_hash`: colour by colour, type by type, bit by bit. */
    method CalculateHash() returns (hash: Word)
      requires Valid()
      ensures hash == FullHash(z, cells, stm, View().Top().rights, View().Top().ep)
    {
      hash := HashPieces();
      XorLaws(hash, {}, {});
      var ep := history[ply].ep;
      if ep.Some? {
        var candidates := typeBb[PAWN] * colorBb[stm] * PawnAttacks(ep.value, Other(stm));
        if candidates != {} {
          hash := Xor(hash, EnPassantKey(z, ep.value));
        }
      }
      hide PawnAttacks, XorTotal;
      hash := Xor(hash, CastlingKey(z, history[ply].rights));
      XorLaws(hash, {}, {});
      if stm == WHITE {
        hash := Xor(hash, SideKey(z));
      }
    }

    /** The en-passant key of the current record's square, if a pawn of `c` can use it. */
    method EpKey(ep: Option<Square>, c: Color) returns (key: Word)
      requires Encodes()
      ensures key == EpPart(z, cells, c, ep)
    {
      key := {};
      if ep.Some? {
        var candidates := typeBb[PAWN] * colorBb[c] * PawnAttacks(ep.value, Other(c));
        if candidates != {} {
          key := EnPassantKey(z, ep.value);
        }
      }
    }

    /** The board part of `make_move`: the switch over move kinds. */
    method MovePieces(m: Move, kind: MoveType, moving: Option<PieceType>, captured: Option<PieceType>)
      requires Encodes() && WellTyped(cells, stm, m) && kind == MoveTypeOf(cells, m)
      requires moving == TypeOn(cells, m.from) && captured == TypeOn(cells, m.to)
      modifies this`cells, typeBb, colorBb
      ensures Encodes() && cells == NextCells(old(cells), stm, m)
    {
      match kind {
        case Normal =>
          MovePiece(m.from, m.to, moving.value, stm);
        case Capture =>
          RemovePiece(m.to, captured.value, Other(stm));
          MovePiece(m.from, m.to, moving.value, stm);
        case DoublePush =>
          MovePiece(m.from, m.to, PAWN, stm);
        case EnPassant =>
          MovePiece(m.from, m.to, PAWN, stm);
          RemovePiece(Behind(m.to, stm), PAWN, Other(stm));
        case Castling =>
          MovePiece(m.from, m.to, KING, stm);
          MovePiece(RookFrom(m.to), RookTo(m.to), ROOK, stm);
        case Promotion =>
          RemovePiece(m.from, PAWN, stm);
          PutPiece(m.to, m.promotion, stm);
        case CapturePromotion =>
          RemovePiece(m.to, captured.value, Other(stm));
          RemovePiece(m.from, PAWN, stm);
          PutPiece(m.to, m.promotion, stm);
        case Untyped =>
      }
    }

    /** Count the full move and open a blank record. */
    method PushRecord()
      requires |history| == ply + 1
      modifies this`fullmoves, this`ply, this`history
      ensures ply == old(ply) + 1 && history == old(history) + [State(0, None, None, None, Untyped, {}, 0)]
      ensures fullmoves == old(fullmoves) + (if stm == BLACK then 1 else 0)
    {
      if stm == BLACK {
        fullmoves := fullmoves + 1;
      }
      ply := ply + 1;
      history := history + [State(0, None, None, None, Untyped, {}, 0)];
    }

    /** First half of `make_move`: open a record, retire the old en-passant key, move the pieces. */
    method StartMove(m: Move)
      returns (prev: State, kind: MoveType, moving: Option<PieceType>, captured: Option<PieceType>, base: Word)
      requires Valid() && WellTyped(cells, stm, m)
      modifies this`cells, this`fullmoves, this`ply, this`history, typeBb, colorBb
      ensures Valid() && cells == NextCells(old(cells), stm, m)
      ensures prev == old(View()).Top() && kind == MoveTypeOf(old(cells), m)
      ensures moving == TypeOn(old(cells), m.from) && captured == TypeOn(old(cells), m.to)
      ensures base == Xor(prev.hash, EpPart(z, old(cells), stm, prev.ep))
      ensures history == old(history) + [State(0, None, None, None, Untyped, {}, 0)]
      ensures fullmoves == old(fullmoves) + (if stm == BLACK then 1 else 0)
    {
      hide Encodes, WellTyped, NextCells, MoveTypeOf, EpPart, Xor, OfKind, Side, TypeOn;
      PushRecord();
      prev := history[ply - 1];
      kind := TypeOfMove(m);
      moving := PieceTypeOn(m.from);
      captured := PieceTypeOn(m.to);
      var epKey := EpKey(prev.ep, stm);
      base := Xor(prev.hash, epKey);
      MovePieces(m, kind, moving, captured);
    }

    /** `make_move`. */
    method MakeMove(m: Move)
      requires Valid() && WellTyped(cells, stm, m)
      modifies this`cells, this`stm, this`fullmoves, this`ply, this`history, typeBb, colorBb
      ensures Valid() && View() == Make(z, old(View()), m)
    {
      ghost var before := View();
      hide Encodes, WellTyped, NextCells, MoveTypeOf, FullHash, EpPart, CastlingKey, NextHash, Spoiler, NextEp, Xor, OfKind, Side, TypeOn, Make;
      var prev, kind, moving, captured, base := StartMove(m);
      var next := NextRecord(prev, m, kind, moving, captured, before.cells);
      ReplaceLast(before.history, history[ply], next);
      history := history[ply := next];
      stm := Other(stm);
      var hash := NewKey(base, prev, m, kind, moving, captured, before.cells);
      ReplaceLast(before.history, next, next.(hash := hash));
      history := history[ply := next.(hash := hash)];
      Made(z, before, m, next, hash);
    }

    /** The new record of `make_move`, all but its key. */
    method NextRecord(prev: State, m: Move, kind: MoveType, moving: Option<PieceType>, captured: Option<PieceType>, ghost before: Cells)
      returns (next: State)
      requires WellTyped(before, stm, m) && kind == MoveTypeOf(before, m)
      requires moving == TypeOn(before, m.from) && captured == TypeOn(before, m.to)
      ensures m.from in before
      ensures next == State(prev.rights & Spoiler(m.from) & Spoiler(m.to), NextEp(before, stm, m), Some(m), captured, kind, {},
                            if before[m.from].kind == PAWN || captured.Some? then 0 else prev.halfmoves + 1)
    {
      next := State(0, None, Some(m), None, Untyped, {}, prev.halfmoves + 1);
      next := next.(rights := prev.rights & Spoiler(m.from) & Spoiler(m.to));
      if moving == Some(PAWN) || captured.Some? {
        next := next.(halfmoves := 0);
      }
      if kind == DoublePush {
        next := next.(ep := Some(PawnShift(m.from, stm)));
      }
      next := next.(captured := captured, kind := kind);
    }

    /** The key of `make_move`: patched, or recomputed after castling and en passant. The pieces
        have moved, the side has changed and the new record is on the history. */
    method NewKey(base: Word, prev: State, m: Move, kind: MoveType, moving: Option<PieceType>, captured: Option<PieceType>, ghost before: Cells)
      returns (hash: Word)
      requires Valid() && WellTyped(before, Other(stm), m) && cells == NextCells(before, Other(stm), m)
      requires kind == MoveTypeOf(before, m) && moving == TypeOn(before, m.from) && captured == TypeOn(before, m.to)
      requires base == Xor(prev.hash, EpPart(z, before, Other(stm), prev.ep))
      requires View().Top().ep == NextEp(before, Other(stm), m)
      ensures hash == NextHash(z, before, Other(stm), prev, m, View().Top().rights)
    {
      hide FullHash, EpPart, CastlingKey, NextCells, Xor, PieceKey, SideKey;
      var c, next := Other(stm), history[ply];
      hash := base;
      match kind {
        case Normal =>
          hash := Xor(hash, PieceKey(z, m.from, Piece(moving.value, c)));
          hash := Xor(hash, PieceKey(z, m.to, Piece(moving.value, c)));
        case Capture =>
          hash := Xor(hash, PieceKey(z, m.to, Piece(captured.value, stm)));
          hash := Xor(hash, PieceKey(z, m.from, Piece(moving.value, c)));
          hash := Xor(hash, PieceKey(z, m.to, Piece(moving.value, c)));
        case DoublePush =>
          var epKey := EpKey(next.ep, stm);
          hash := Xor(hash, epKey);
          hash := Xor(hash, PieceKey(z, m.from, Piece(PAWN, c)));
          hash := Xor(hash, PieceKey(z, m.to, Piece(PAWN, c)));
        case Promotion =>
          hash := Xor(hash, PieceKey(z, m.from, Piece(PAWN, c)));
          hash := Xor(hash, PieceKey(z, m.to, Piece(m.promotion, c)));
        case CapturePromotion =>
          hash := Xor(hash, PieceKey(z, m.to, Piece(captured.value, stm)));
          hash := Xor(hash, PieceKey(z, m.from, Piece(PAWN, c)));
          hash := Xor(hash, PieceKey(z, m.to, Piece(m.promotion, c)));
        case EnPassant =>
        case Castling =>
        case Untyped =>
      }
      if kind == EnPassant || kind == Castling {
        hash := CalculateHash();
      } else {
        hash := Xor(Xor(Xor(hash, SideKey(z)), CastlingKey(z, prev.rights)), CastlingKey(z, next.rights));
      }
    }

    /** `move_type_of`. */
    method TypeOfMove(m: Move) returns (kind: MoveType)
      requires Encodes()
      ensures kind == MoveTypeOf(cells, m)
    {
      if m.kind != Untyped {
        return m.kind;
      }
      var moving := PieceTypeOn(m.from);
      var captured := PieceTypeOn(m.to);
      if m.PromotionType().Some? {
        return if captured.Some? then CapturePromotion else Promotion;
      } else if captured.Some? {
        return Capture;
      } else if moving == Some(PAWN) {
        var diff := Abs(m.to - m.from);
        if diff == 16 {
          return DoublePush;
        } else if diff == 9 || diff == 7 {
          return EnPassant;
        }
        return Normal;
      } else if moving == Some(KING) && Abs(m.to - m.from) == 2 {
        return Castling;
      }
      return Normal;
    }

    /** The board part of `unmake_move`. */
    method RestorePieces(m: Move, kind: MoveType, captured: Option<PieceType>)
      requires Encodes() && Undoable(cells, stm, m, kind, captured)
      modifies this`cells, typeBb, colorBb
      ensures Encodes() && cells == PriorCells(old(cells), stm, m, kind, captured)
    {
      var moving := PieceTypeOn(m.to);
      match kind {
        case Normal =>
          MovePiece(m.to, m.from, moving.value, stm);
        case Capture =>
          MovePiece(m.to, m.from, moving.value, stm);
          PutPiece(m.to, captured.value, Other(stm));
        case DoublePush =>
          MovePiece(m.to, m.from, PAWN, stm);
        case EnPassant =>
          PutPiece(Behind(m.to, stm), PAWN, Other(stm));
          MovePiece(m.to, m.from, PAWN, stm);
        case Castling =>
          MovePiece(m.to, m.from, KING, stm);
          MovePiece(RookTo(m.to), RookFrom(m.to), ROOK, stm);
        case Promotion =>
          RemovePiece(m.to, m.promotion, stm);
          PutPiece(m.from, PAWN, stm);
        case CapturePromotion =>
          RemovePiece(m.to, m.promotion, stm);
          PutPiece(m.from, PAWN, stm);
          PutPiece(m.to, captured.value, Other(stm));
        case Untyped =>
      }
    }

    /** `unmake_move`. */
    method UnmakeMove()
      requires Valid() && CanUnmake(View())
      modifies this`cells, this`stm, this`fullmoves, this`ply, this`history, typeBb, colorBb
      ensures Valid() && View() == Unmake(old(View()))
    {
      var top := history[ply];
      if stm == WHITE {
        fullmoves := fullmoves - 1;
      }
      ply := ply - 1;
      history := history[..|history| - 1];
      stm := Other(stm);
      if top.previous.None? {
        return;
      }
      RestorePieces(top.previous.value, top.kind, top.captured);
    }

    /** `make_null_move`. */
    method MakeNullMove()
      requires Valid()
      modifies this`stm, this`fullmoves, this`ply, this`history
      ensures Valid() && View() == MakeNull(z, old(View()))
    {
      var mover := stm;
      PushRecord();
      var prev := history[ply - 1];
      stm := Other(stm);
      var next := history[ply].(previous := None, halfmoves := prev.halfmoves + 1, rights := prev.rights, hash := prev.hash);
      var epKey := EpKey(prev.ep, mover);
      next := next.(hash := Xor(next.hash, epKey));
      next := next.(hash := Xor(next.hash, SideKey(z)), ep := None);
      history := history[ply := next];
    }

    /** Any move and its undo leave every field as it was: an in-place round trip. */
    method MakeAndUnmake(m: Move)
      requires Valid() && WellTyped(cells, stm, m)
      modifies this`cells, this`stm, this`fullmoves, this`ply, this`history, typeBb, colorBb
      ensures Valid() && View() == old(View())
      ensures typeBb[..] == old(typeBb[..]) && colorBb[..] == old(colorBb[..]) && ply == old(ply)
    {
      UnmakeUndoesMake(z, View(), m);
      MakeMove(m);
      UnmakeMove();
    }

    /** `repeat_count`. */
    method CountRepeats() returns (count: nat)
      requires Valid()
      ensures count == RepeatCount(history)
    {
      var key, floor := history[ply].hash, Max(0, ply - history[ply].halfmoves);
      ghost var marks := HashMarks(history);
      count := 0;
      var i := ply - 2;
      while i >= floor
        invariant i <= ply - 2
        invariant count + CountDown(marks, i, floor) == CountDown(marks, ply - 2, floor)
        decreases i - floor
      {
        if history[i].hash == key {
          count := count + 1;
        }
        i := i - 2;
      }
    }

    /** `is_repeat`: whether at least `times` earlier keys in the window equal the current one. */
    method IsRepeat(times: int) returns (found: bool)
      requires Valid()
      ensures found <==> RepeatCount(history) >= Max(1, times)
    {
      var key, floor := history[ply].hash, Max(0, ply - history[ply].halfmoves);
      ghost var marks := HashMarks(history);
      var count, i := 0, ply - 2;
      while i >= floor
        invariant i <= ply - 2 && 0 <= count < Max(1, times)
        invariant count + CountDown(marks, i, floor) == CountDown(marks, ply - 2, floor)
        decreases i - floor
      {
        if history[i].hash == key {
          count := count + 1;
          if count >= times {
            return true;
          }
        }
        i := i - 2;
      }
      return false;
    }

    method Occupancy() returns (occ: Bitboard)
      requires Encodes()
      ensures occ == cells.Keys
    {
      occ := colorBb[WHITE] + colorBb[BLACK];
    }

    /** `king_square`. */
    method KingOf(c: Color) returns (k: Square)
      requires Encodes() && OneKing(cells, c)
      ensures k == KingSquare(cells, c)
    {
      ghost var king := KingSquare(cells, c);
      assert king in typeBb[KING] * colorBb[c];
      k := Lowest(typeBb[KING] * colorBb[c]);
    }

    /** Sliders of the other side that see `k` on an empty board. */
    method PinnersOf(c: Color, k: Square) returns (pinners: Bitboard)
      requires Encodes()
      ensures pinners == Pinners(cells, c, k)
    {
      forall s: Square
        ensures s in RookAttacks(k, {}) <==> RookLine(s, k)
        ensures s in BishopAttacks(k, {}) <==> BishopLine(s, k)
      {
        RookAttacksMeaning(k, {}, s);
        BishopAttacksMeaning(k, {}, s);
      }
      hide RookAttacks, BishopAttacks, RookLine, BishopLine;
      pinners := (typeBb[QUEEN] + typeBb[ROOK]) * colorBb[Other(c)] * RookAttacks(k, {});
      pinners := pinners + (typeBb[QUEEN] + typeBb[BISHOP]) * colorBb[Other(c)] * BishopAttacks(k, {});
    }

    /** `attackers_to` with a given occupancy. */
    method AttackersTo(t: Square, occ: Bitboard) returns (attackers: Bitboard)
      requires Encodes()
      ensures attackers == Attackers(cells, t, occ)
    {
      attackers := PawnAttacks(t, WHITE) * (typeBb[PAWN] * colorBb[BLACK]);
      attackers := attackers + PawnAttacks(t, BLACK) * (typeBb[PAWN] * colorBb[WHITE]);
      assert attackers == set s | s in Attackers(cells, t, occ) && cells[s].kind < KNIGHT by {
        forall s: Square
          ensures s in PawnAttacks(t, WHITE) <==> Attacks(Piece(PAWN, BLACK), s, t, occ)
          ensures s in PawnAttacks(t, BLACK) <==> Attacks(Piece(PAWN, WHITE), s, t, occ)
        {
          PawnAttacksMeaning(t, WHITE, s);
          PawnAttacksMeaning(t, BLACK, s);
        }
        hide PawnAttacks, Attacks;
      }
      hide Attacks, PawnAttacks, NonPawnAttacks;
      for k := KNIGHT to 6
        invariant attackers == set s | s in Attackers(cells, t, occ) && cells[s].kind < k
      {
        forall s | s in OfKind(cells, k) ensures s in NonPawnAttacks(k, t, occ) <==> Attacks(cells[s], s, t, occ) {
          NonPawnAttacksMeaning(cells[s], s, t, occ);
        }
        attackers := attackers + NonPawnAttacks(k, t, occ) * typeBb[k];
      }
    }

    /** `pinned_pieces_of`: one pass over the pinners, each toggling the lone piece it shields. */
    method PinnedPiecesOf(c: Color) returns (pinned: Bitboard)
      requires Encodes() && OneKing(cells, c)
      ensures pinned == PinnedPieces(cells, c, KingSquare(cells, c))
    {
      var k := KingOf(c);
      var pinners := PinnersOf(c, k);
      var occ := Occupancy();
      assert colorBb[c] == Side(cells, c);
      hide Encodes, Slides, Pinners, Intervening, InBetween, PinsAlone, OneKing, KingSquare, OfKind, Side, Xor, IsKing;
      pinned := {};
      ghost var done: Bitboard := {};
      while pinners != {}
        invariant pinners !! done && pinners + done == Pinners(cells, c, k)
        invariant pinned == PinnedBy(cells, c, k, done)
        decreases pinners
      {
        var s := Lowest(pinners);
        pinners := pinners - {s};
        var bb := Intervening(s, k) * occ;
        InterveningIsBetween(s, k);
        PinStep(cells, c, k, done, s);
        if |bb| == 1 {
          pinned := Xor(pinned, bb * colorBb[c]);
        }
        done := done + {s};
      }
      assert done == Pinners(cells, c, k);
    }

    /** `is_legal_generated_move` against a precomputed pin mask. */
    method IsLegalGenerated(m: Move, pinned: Bitboard) returns (legal: bool)
      requires Valid() && OneKing(cells, stm)
      requires m.kind == EnPassant ==> View().Top().ep == Some(m.to) && 0 <= Behind(m.to, stm) < 64
      ensures legal <==> PassesTest(cells, stm, KingSquare(cells, stm), m, pinned)
    {
      var k := KingOf(stm);
      var enemy := Other(stm);
      hide RookAttacks, BishopAttacks, FullRay, Attacks, KingSquare;
      var occ := Occupancy();
      if m.kind == EnPassant {
        var ep := history[ply].ep.value;
        var after := Xor(Xor(occ, {m.from}), {Behind(ep, stm)}) + {ep};
        return RookAttacks(k, after) * (colorBb[enemy] * (typeBb[QUEEN] + typeBb[ROOK])) == {} &&
               BishopAttacks(k, after) * (colorBb[enemy] * (typeBb[QUEEN] + typeBb[BISHOP])) == {};
      } else if m.from == k {
        var attackers := AttackersTo(m.to, occ);
        return m.kind == Castling || attackers * colorBb[enemy] == {};
      }
      return m.from !in pinned || m.to in FullRay(k, m.from);
    }
  }

  lemma Made(z: Randoms, p: Pos, m: Move, next: State, hash: Word)
    requires p.history != [] && WellTyped(p.cells, p.stm, m) && m.from in p.cells
    requires next == State(p.Top().rights & Spoiler(m.from) & Spoiler(m.to), NextEp(p.cells, p.stm, m), Some(m), TypeOn(p.cells, m.to),
                           MoveTypeOf(p.cells, m), {}, if p.cells[m.from].kind == PAWN || TypeOn(p.cells, m.to).Some? then 0 else p.Top().halfmoves + 1)
    requires hash == NextHash(z, p.cells, p.stm, p.Top(), m, next.rights)
    ensures Make(z, p, m) == Pos(NextCells(p.cells, p.stm, m), Other(p.stm), p.fullmoves + (if p.stm == BLACK then 1 else 0),
                                 p.history + [next.(hash := hash)])
  {
    hide WellTyped, NextCells, MoveTypeOf, NextHash, Spoiler, NextEp, TypeOn;
  }

  lemma ReplaceLast(history: seq<State>, last: State, next: State)
    ensures (history + [last])[|history| := next] == history + [next]
  {
  }

  /** Own pieces pinned by one of the sliders in `by`. */
  function PinnedBy(cells: Cells, c: Color, k: Square, pinners: Bitboard): Bitboard {
    set f | f in cells && cells[f].color == c && exists s :: s in pinners && PinsAlone(cells, s, k, f)
  }

  lemma InterveningIsBetween(s: Square, k: Square)
    ensures Intervening(s, k) == Between(s, k)
  {
    forall m: Square ensures m in Intervening(s, k) <==> InBetween(s, m, k) {
      InterveningMeaning(s, k, m);
    }
  }

  /** One more pinner: toggling the lone shield adds it, since no other pinner shares it. */
  lemma PinStep(cells: Cells, c: Color, k: Square, done: Bitboard, s: Square)
    requires done <= Pinners(cells, c, k) && s in Pinners(cells, c, k) && s !in done
    ensures
      var bb := Between(s, k) * cells.Keys;
      PinnedBy(cells, c, k, done + {s}) ==
      if |bb| == 1 then Xor(PinnedBy(cells, c, k, done), bb * Side(cells, c)) else PinnedBy(cells, c, k, done)
  {
    var bb := Between(s, k) * cells.Keys;
    hide InBetween, Slides;
    if |bb| == 1 {
      var f := Lowest(bb);
      LoneElement(bb, f);
      forall t | t in done && PinsAlone(cells, t, k, f) ensures t == s {
        OnePinner(cells, c, k, s, t, f);
      }
      assert f !in PinnedBy(cells, c, k, done);
      assert PinsAlone(cells, s, k, f);
    } else {
      assert forall f: Square :: PinsAlone(cells, s, k, f) ==> bb == {f};
    }
  }

  lemma LoneElement(bb: Bitboard, f: Square)
    requires |bb| == 1 && f in bb
    ensures bb == {f}
  {
    assert |bb - {f}| == 0;
  }

  lemma NotBehindPinner(cells: Cells, k: Square, s: Square, t: Square, f: Square)
    requires PinsAlone(cells, s, k, f) && InBetween(t, f, k) && t in cells
    ensures !InBetween(s, t, k)
  {
    assert t in Between(s, k) ==> t in Between(s, k) * cells.Keys;
  }

  /** No piece is the lone shield against two sliders, so toggling never clears a pin. */
  lemma OnePinner(cells: Cells, c: Color, k: Square, s: Square, t: Square, f: Square)
    requires s in Pinners(cells, c, k) && t in Pinners(cells, c, k) && PinsAlone(cells, s, k, f) && PinsAlone(cells, t, k, f)
    ensures s == t
  {
    assert f in Between(s, k) && f in Between(t, k);
    NotBehindPinner(cells, k, s, t, f);
    NotBehindPinner(cells, k, t, s, f);
    if s != t {
      SameSide(File(s), Rank(s), File(t), Rank(t), File(f), Rank(f), File(k), Rank(k));
    }
  }
}
