# Model of a chess engine with an incremental network evaluator

The engine keeps a position as bitboards and a history, moves and unmoves pieces on it in place,
decides legality from pins and rays, evaluates with two accumulators updated move by move, searches
captures to quiet positions, caches results in a two-level table, and on its board serves games over
HTTP. This project models those parts in Dafny and proves what they promise each other.

| file | part |
|---|---|
| Types, Arithmetic, Folds | squares, moves, totals and key folds over a board |
| Lookups | step tables, rays, lines |
| Rules | a mailbox board, make, null move, unmake, keys |
| Legality, Pins, Evasions | pseudo-legal moves, well-formed positions, pins, checks |
| Rulebook | the moves and the board after them in file and rank coordinates |
| Keys | what a position key separates |
| Runs, Repetition | whole games: nesting, reachability, repetition counting |
| Draws | the empty move list and the mate score of a drawn position |
| Position | the object with bitboards, proved against `Rules` |
| Generators | the move lists |
| Acceptance | the legality test for moves from elsewhere: remembered, booked, predicted |
| Fen, FenLayout | Forsyth-Edwards text (PGN Specification and Implementation Guide, section 16.1) |
| Kernels, Weights, Evaluator | accumulator arithmetic, weight table layout, evaluator |
| See, Exchanges, Quiescence, Histories | exchange values and what they value, quiescence search over a tree, ordering statistics |
| Noisy, BoardSearch | the moves and tests of quiescence search on the boards, and the search in place |
| Tt | transposition table |
| Web | the game session |
| Book, BookMoves | opening book, the sixteen bits of its moves |

A 64-bit word is modelled as the set of its one bits, so xor is symmetric difference and a bitboard is
a set of squares. The random numbers of the keys are an arbitrary table. Times, replies of the engine,
allocation outcomes and file reads are parameters.

These promises do not hold of the code, and each has its exact condition or a stated class:

* The evasion generator omits an en-passant capture that blocks a check given by another piece.
  `Runs.ListCompleteExactly` is the condition on a position. No legal move leads to such a position:
  on every line the list is complete after the root (`Runs.LineListComplete`). The omission arises
  only at a root read from a text, and there it does (`Fen.OmissionFromText`).
* `legal_move_list` is empty at 150 half-moves or the fifth occurrence of a position, so quiescence
  search can score a check with an escape as a mate (`Draws.FalseMate`); `Draws.MateScoreExact`
  separates the real mates.
* `is_legal_move` lets through more than legal moves. Its board part does not see a pawn going two
  steps from a wrong rank or reaching the last rank without promoting (`Acceptance.StrayIsAccepted`),
  and it goes by the kind a move carries: outside check it lets through exactly the moves that are
  pseudo-legal or stray once reclassified and pass the pin test under that kind
  (`Acceptance.AcceptsExactly`). A legal capture marked as a plain move is let through and cannot be
  made (`Acceptance.MarkedPlainIsAccepted`); a move let through can be made if and only if its kind
  suits its squares (`Acceptance.MakeableExactly`), and always under the kind its squares mean.
* A transposition-table hit can be out of date unless there is no front cache, the main pairs are a
  multiple of the front pairs, or they are as many as the hash has values above the tag
  (`Tt.NeverStaleExactly`).
* A game result can change after it is set (`Web.ResultCanChange`, `Web.ResultKeptExactly`), and
  `searching` can outlive its worker (`Web.SearchingWithoutWorker`, `Web.SearchingMatchesExactly`);
  both are reached by runs from the initial session.
* The greedy exchange value of a legal capture can exceed the best one can do
  (`Noisy.OverratedCaptureIsLegal`); it is right whenever no slider stands behind the attackers of the
  target (`See.ExchangeIsMinimax`).
* On the board, when the temporary table of the square-major reordering is not granted, the look-up
  goes on using the new order (`Weights.UnclusteredExactly`).
* An en-passant capture does not survive the sixteen bits of a book move. It comes back as a plain
  pawn move, is let through, and is made as one: the captured pawn stays (`Acceptance.BookEnPassant`).
  Every other move survives (`BookMoves.DecodeEncoded`).
* A text that puts two different pieces on one square is accepted by the code, and builds boards that
  no mailbox encodes (`Fen.PlacementExactly`).

The comment above the square-major reordering (app/src/nnue.cpp:219-228) says the flat rows are
reordered before pairing; the code pairs first and reorders the paired rows, and the model follows it.

## Model

| member | source | states |
|---|---|---|
| Positions.Position.PutPiece | app/include/libchess/Position.h:231-235 | or-ing the square into two boards puts the piece on the mailbox they encode, and the encoding is kept |
| Positions.Position.RemovePiece | app/include/libchess/Position.h:236-240 | masking the square out of two boards takes the piece off the mailbox |
| Positions.Position.MovePiece | app/include/libchess/Position.h:241-245 | xor-ing a two-square mask into two boards moves the piece on the mailbox |
| Positions.Position.PieceTypeOn | app/include/libchess/Position/Getters.h:58-65 | the loop over six boards returns the type standing on the square, or nothing exactly when it is empty |
| Positions.Position.ColorOf | app/include/libchess/Position/Getters.h:67-74 | the loop over two boards returns the colour standing on the square |
| Positions.Position.CalculateHash | app/include/libchess/Position.h:162-186 | the key loops compute the order-free xor over all pieces, the usable en-passant file, the rights and the side |
| Positions.Position.TypeOfMove | app/include/libchess/Position/MoveIntegration.h:6-35 | the kind an untyped move means, from squares and pieces |
| Positions.Position.MakeMove | app/include/libchess/Position/MoveIntegration.h:129-254 | boards, side, counters, record and incremental key after the call are those of the mailbox move `Rules.Make`, for every kind |
| Positions.Position.UnmakeMove | app/include/libchess/Position/MoveIntegration.h:60-127 | boards, side, counters and history after the call are those of `Rules.Unmake` |
| Positions.Position.MakeNullMove | app/include/libchess/Position/MoveIntegration.h:256-278 | only side, counters and a new record change; the key loses the en-passant part and flips the side |
| Positions.Position.MakeAndUnmake | app/include/libchess/Position/MoveIntegration.h:60-254 | in place, a move and its undo leave every board, field and record as it was |
| Rules.UnmakeUndoesMake | app/include/libchess/Position/MoveIntegration.h:60-254 | `unmake_move` after `make_move` restores pieces, side, full-move counter and the whole history, for each kind of move |
| Rules.UnmakeUndoesNull | app/include/libchess/Position/MoveIntegration.h:60-278 | the same after `make_null_move` |
| Rules.MakeKeepsHash | app/include/libchess/Position/MoveIntegration.h:135-253 | a stored key that equals the key from scratch still does after any move: the six patched kinds and the two recomputed ones |
| Rules.NullKeepsHash | app/include/libchess/Position/MoveIntegration.h:256-278 | and after a null move |
| Legality.MakeKeepsWellFormed | app/include/libchess/Position/MoveIntegration.h:129-254 | one king a side, rights with king and rook at home, a sound en-passant square and pawns off the back ranks survive every pseudo-legal move that does not take a king |
| Legality.NullKeepsWellFormed | app/include/libchess/Position/MoveIntegration.h:256-278 | and every null move |
| Legality.SpoilerMeaning | app/include/libchess/Position.h:190-199 | a right survives a move exactly if neither its king nor its rook square was touched |
| Legality.EpIsCrossed | app/include/libchess/Position/MoveIntegration.h:186-200 | a record has an en-passant square exactly after a double push, and it is the square jumped over |
| Rulebook.CastlingByTheBook | app/include/libchess/Position/MoveGeneration.h:162-194 | castling is generated if and only if, in coordinates, king and rook stand at home with the right not lost, every square between them is empty, and neither the king nor any square it crosses or reaches is attacked |
| Rulebook.PseudoLegalByTheBook | app/include/libchess/Position/MoveGeneration.h:6-194 | the pseudo-legal moves are those of the book in coordinates: pieces by attack, pawns one step, two from the second rank over an empty square, diagonally onto an enemy or the crossed square, the four promotions exactly on the last rank, castling; each under the kind its squares mean |
| Rulebook.MovePlaces | app/include/libchess/Position/MoveIntegration.h:165-253 | after a move the mover, or the piece chosen, stands on the target, its home is empty, a pawn taken in passing is gone from beside it, and every other square is as before |
| Rulebook.CastlingPlaces | app/include/libchess/Position/MoveIntegration.h:203-224 | after castling the rook stands on the square the king crossed, corner and home are empty, and nothing else changed |
| Rulebook.CounterRestarts | app/include/libchess/Position/MoveIntegration.h:150-157 | the half-move counter starts again exactly when the pawns or the number of pieces changed, and otherwise counts one more |
| Rulebook.NullKeepsBoard | app/include/libchess/Position/MoveIntegration.h:256-278 | a null move keeps board and rights and clears the en-passant square |
| Keys.SlotsApart | app/include/libchess/internal/Zobrist.h:12-40 | the 781 features a key has numbers for, pieces on squares, rights, files, the turn, have slots of their own, as the Polyglot format numbers them |
| Keys.KeysSeparate | app/include/libchess/Position.h:162-186 | two positions are the same if and only if they have the same key under every table of random numbers |
| Keys.UsableMeaning | app/include/libchess/Position.h:170-178 | the en-passant file counts in key and comparison exactly when some en-passant capture is pseudo-legal |
| Runs.LegalKeepsSound | app/include/libchess/Position/MoveGeneration.h:365-379 | a move of the legal list leads to a well-formed position in which the side that moved is not in check, with the right key |
| Runs.ListCompleteExactly | app/include/libchess/Position/MoveGeneration.h:365-379 | the legal move list of a well-formed position is all safe pseudo-legal moves if and only if the board shows no overlooked capture: only sliders check, and none would see the king after a capture on the recorded en-passant square |
| Runs.OmittedMeaning | app/include/libchess/Position/MoveGeneration.h:248-262 | that board condition says of a capture exactly that it is overlooked and safe once played |
| Runs.ListCompleteAfterMove | app/include/libchess/Position/MoveGeneration.h:248-262 | after any legal move from a sound position the list is complete: beside a safe en-passant capture only the pushed pawn can give check |
| Runs.LineIsSound | app/include/libchess/Position/MoveIntegration.h:129-278 | every position on a line of legal and null moves is well-formed, safe for the side that moved, keyed right, and has one record per ply |
| Runs.LineListComplete | app/include/libchess/Position/MoveGeneration.h:365-379 | so in every position after the root of any line of legal and null moves |
| Runs.LineCountsMoves | app/include/libchess/Position/MoveIntegration.h:129-143 | sides alternate and the full-move counter counts the moves of Black |
| Runs.MovePieceCount | app/include/libchess/Position/MoveIntegration.h:165-253 | a capture of any kind takes exactly one piece off the board, every other move none |
| Runs.LinePieceCount | app/include/libchess/Position/MoveIntegration.h:165-253 | along a line the number of pieces never grows and falls by at most one a ply |
| Runs.UnwindReturns | app/include/libchess/Position/MoveIntegration.h:60-127 | unmaking any number of pending moves returns exactly the position they were made in |
| Runs.RunFollowsLine | app/include/libchess/Position/MoveIntegration.h:60-278 | any interleaving of makes, null moves and unmakes stays at the end of a line of steps from the root |
| Runs.ReachableIsSound | app/include/libchess/Position/MoveIntegration.h:60-278 | in every state such an interleaving reaches, boards, key and history depth are right and the pieces no more than at the root; at depth zero it is the root itself |
| Runs.KeyAlongAnyRun | app/include/libchess/Position/MoveIntegration.h:60-278 | from any root with a right key, through any nesting of moves that can be made, legal or not, null moves and unmakes, the stored key is the key from scratch and depth zero is the root |
| Positions.Position.CountRepeats | app/include/libchess/Position/Getters.h:99-109 | the loop counts the equal keys of the window, two plies apart |
| Positions.Position.IsRepeat | app/include/libchess/Position/Getters.h:84-97 | the early exit answers whether that count reaches the threshold |
| Repetition.PotentialStep | app/include/libchess/Position/MoveIntegration.h:150-160 | a measure of piece count, pawn count and pawn advance never rises and strictly falls on every move that resets the half-move counter |
| Repetition.BeyondWindowDiffers | app/include/libchess/Position/Getters.h:86-88 | positions older than the half-move counter hold different pieces or pawns than the current one |
| Repetition.WindowMissesNothing | app/include/libchess/Position/Getters.h:99-109 | counting equal positions in the window in steps of two equals counting them over the whole game |
| Repetition.RepeatCountCovers | app/include/libchess/Position/Getters.h:99-109 | the key count is never below the number of earlier occurrences |
| Repetition.RepeatCountExact | app/include/libchess/Position/Getters.h:99-109 | and equals it when no two different positions of the game share a key |
| Draws.MateScoreExact | app/src/search.cpp:333-343 | on every line after the root, a drawn position is scored as a mate if and only if it is checkmate, or in check past the cut-offs of the move list |
| Draws.FalseMate | app/src/search.cpp:333-343 | a checking move after 149 half-moves leads to a position scored as a mate although the king has a safe step |
| Lookups.PawnAttacksMeaning | app/include/libchess/Lookups.h:214-231 | shifts and file masks give exactly the two diagonal steps forward, never wrapping round the board |
| Lookups.KnightAttacksMeaning | app/include/libchess/Lookups.h:233-262 | exactly the knight steps |
| Lookups.KingAttacksMeaning | app/include/libchess/Lookups.h:264-289 | exactly the king steps |
| Lookups.WalkMeaning | app/include/libchess/Lookups.h:57-169 | a ray walk reaches exactly the squares straight ahead with nothing in between |
| Lookups.RookAttacksMeaning | app/include/libchess/Lookups.h:356-365 | a rook attacks exactly the squares of its rank and file with a clear path |
| Lookups.BishopAttacksMeaning | app/include/libchess/Lookups.h:347-355 | a bishop attacks exactly the squares of its diagonals with a clear path |
| Lookups.InterveningMeaning | app/include/libchess/Lookups.h:427-450 | `intervening` is exactly the squares strictly between two aligned squares, and empty otherwise |
| Lookups.FullRayMeaning | app/include/libchess/Lookups.h:402-425 | `full_ray` is the whole line through two aligned squares, ends included |
| Positions.Position.AttackersTo | app/include/libchess/Position/Attacks.h:10-21 | looking outward from the target finds exactly the pieces that attack it |
| Positions.Position.PinnedPiecesOf | app/include/libchess/Position/Attacks.h:48-64 | toggling each lone shield ends with exactly the pinned pieces: no piece shields the king from two sliders |
| Positions.Position.IsLegalGenerated | app/include/libchess/Position/Getters.h:135-155 | the test on boards is the test on the mailbox |
| Pins.KingTestExact | app/include/libchess/Position/Getters.h:147-149 | outside check, a king step is refused exactly when its target is attacked after the step |
| Pins.AttackedAfter | app/include/libchess/Position/Getters.h:150-153 | after a move of another piece the king is attacked exactly when some checker is unanswered or a pin line is left |
| Pins.EpAttackedAfter | app/include/libchess/Position/Getters.h:139-146 | after en passant the king is attacked exactly when a slider sees it on the resulting occupancy or a step piece checks |
| Pins.CastlingIsSafe | app/include/libchess/Position/MoveGeneration.h:162-194 | generated castling never leaves the king attacked |
| Evasions.PlainEvasion | app/include/libchess/Position/MoveGeneration.h:196-283 | a generated capture or block is exactly a pseudo-legal move that answers every check |
| Evasions.LegalListExact | app/include/libchess/Position/MoveGeneration.h:365-379 | in every well-formed position the filtered list is exactly the pseudo-legal moves that leave the own king unattacked once played, less the en-passant captures of a pawn that is not the checker |
| Evasions.EpBlockIsMissed | app/include/libchess/Position/MoveGeneration.h:248-262 | a board, only a text can describe it, where such an en-passant capture blocks the check safely and is not in the list |
| Generators.QuietPromotions | app/include/libchess/Position/MoveGeneration.h:6-24 | appends the promoting pushes, each once, and nothing else |
| Generators.CapturePromotions | app/include/libchess/Position/MoveGeneration.h:26-43 | appends the promoting captures, each once, and nothing else |
| Generators.PawnQuiets | app/include/libchess/Position/MoveGeneration.h:50-72 | appends the promoting, single and double pushes, each once, and nothing else |
| Generators.PawnCaptures | app/include/libchess/Position/MoveGeneration.h:74-97 | appends the promoting, plain and en-passant pawn captures, each once, and nothing else |
| Generators.NonPawnQuiets | app/include/libchess/Position/MoveGeneration.h:104-117 | appends the steps of one piece type to empty squares, each once, and nothing else |
| Generators.NonPawnCaptures | app/include/libchess/Position/MoveGeneration.h:119-135 | appends the captures of one piece type, each once, and nothing else |
| Generators.GenerateCastling | app/include/libchess/Position/MoveGeneration.h:162-194 | appends castling, once a wing, exactly when right, gap and unattacked squares allow it |
| Generators.CasesCover | app/include/libchess/Position/MoveGeneration.h:318-348 | the cases of the generators together are the pseudo-legal moves |
| Generators.PseudoLegalMoves | app/include/libchess/Position/MoveGeneration.h:344-348 | the generated list holds exactly the pseudo-legal moves, each once, all captures before all quiet moves |
| Generators.KingSteps | app/include/libchess/Position/MoveGeneration.h:291-303 | king evasions are judged with the king lifted off the board |
| Generators.CheckerCaptures | app/include/libchess/Position/MoveGeneration.h:248-283 | appends the captures of a lone checker, each once, and nothing else |
| Generators.CheckerBlocks | app/include/libchess/Position/MoveGeneration.h:196-246 | appends the interpositions against a lone checker, each once, and nothing else |
| Generators.CheckEvasions | app/include/libchess/Position/MoveGeneration.h:285-312 | the evasion list holds exactly the evasions, each once |
| Generators.Filter | app/include/libchess/Position/MoveGeneration.h:365-379 | swap-and-pop keeps exactly the moves that pass, repeating none, whatever the order |
| Generators.LegalMoves | app/include/libchess/Position/MoveGeneration.h:365-379 | in every well-formed position the list built and filtered in place holds exactly the legal moves, each once: the safe pseudo-legal ones less the overlooked en-passant captures |
| Generators.LegalMoveList | app/include/libchess/Position/MoveGeneration.h:381-386 | empty from 150 half-moves or four repeats on, the legal moves, each once, otherwise; empty exactly when one of these holds or no move is legal |
| Acceptance.IsLegalMove | app/include/libchess/Position/Getters.h:157-228 | the test on boards, with its castling list, its pin test and the list look-up in check, is the test on the mailbox; it reads an absent en-passant square exactly for a move marked en passant that passes the board part outside check |
| Acceptance.LegalIsAccepted | app/include/libchess/Position/Getters.h:157-228 | every legal move is let through, unless the mover is in check past the cut-offs of the move list |
| Acceptance.AcceptsInCheck | app/include/libchess/Position/Getters.h:222-227 | in check exactly the moves of the legal move list are let through, the kind aside |
| Acceptance.AcceptsExactly | app/include/libchess/Position/Getters.h:157-224 | outside check, whatever kind a move carries, it is let through if and only if it is pseudo-legal or stray once reclassified and passes the pin test under the kind it carries |
| Acceptance.ClassifiedExactly | app/include/libchess/Position/Getters.h:157-224 | a move of the kind its squares mean is let through if and only if it is legal, or stray and past the pin test; a stray pawn move is never legal |
| Acceptance.KindAside | app/include/libchess/Position/Getters.h:135-224 | any kind but castling and en passant gets the answer of the right kind; an en-passant capture that carries one is judged by the pin test alone |
| Acceptance.MakeableExactly | app/include/libchess/Position/MoveIntegration.h:129-254 | a move let through meets what `make_move` needs if and only if the kind it carries suits its squares |
| Acceptance.ClassifiedIsMakeable | app/include/libchess/Position/MoveIntegration.h:6-35 | a move let through under the kind its squares mean can be made |
| Acceptance.MarkedPlainIsAccepted | app/src/search.cpp:625-630 | every legal capture outside check is let through when marked as a plain move, and then cannot be made |
| Acceptance.StrayIsAccepted | app/include/libchess/Position/Getters.h:204-206 | a sound position in which a pawn on its third rank is let through for two steps, which is not legal |
| Acceptance.BookMoveIsAccepted | app/src/book.cpp:119-198 | every legal move comes back from its book bits as a move that is let through, unless in check past the cut-offs: as itself, or an en-passant capture as a plain pawn move |
| Acceptance.BookEnPassant | app/src/tui.cpp:1834-1845 | that plain move can be made, and leaves the board of the capture with the captured pawn still on it |
| Fen.Print | app/include/libchess/Position/Utilities.h:52-89 | the printing loops produce the six fields, empty squares counted per rank |
| Fen.Parse | app/include/libchess/Position/Utilities.h:199-270 | the parsing walk builds the position the text describes, checks the en-passant square and computes the key; it gives none exactly when no mailbox is described |
| Fen.CheckEp | app/include/libchess/Position/Utilities.h:242-254 | an en-passant square stays exactly if an enemy pawn stands behind it |
| Fen.ScanPlacement | app/include/libchess/Position/Utilities.h:54-222 | reading a printed placement gives back the board |
| Fen.PlacementExactly | app/include/libchess/Position/Utilities.h:206-222 | a placement is accepted if and only if no piece lands off the board and some mailbox is what the boards or-ed together encode; then it is that mailbox |
| Fen.RightsRoundTrip | app/include/libchess/CastlingRights.h:95-125 | castling rights survive printing and reading |
| Fen.SquareRoundTrip | app/include/libchess/Square.h:48-60 | a square survives printing and reading |
| Fen.LongRoundTrip | app/include/libchess/Position/Utilities.h:83-265 | a counter survives printing and `strtol`, negative ones included |
| Fen.TextRoundTrip | app/include/libchess/Position/Utilities.h:52-270 | for every well-formed position with a right key, reading its text gives the same board, side, rights, en-passant square, counters and key |
| Fen.ParsedEp | app/include/libchess/Position/Utilities.h:233-254 | a position read from any text has an en-passant square only with an enemy pawn behind it |
| FenLayout.FirstAndLast | app/include/libchess/Position/Utilities.h:54-75 | the board is written from a8 to h1 |
| FenLayout.EmptyRank | app/include/libchess/Position/Utilities.h:56-70 | an empty rank is written 8 |
| FenLayout.Letters | app/include/libchess/Position/Utilities.h:60-66 | capital letters are the white pieces, small ones the black |
| FenLayout.SixFields | app/include/libchess/Position/Utilities.h:52-89 | board, side, rights, en-passant square, half-moves and full moves in this order, one space apart |
| FenLayout.SideAndRights | app/include/libchess/Position/Utilities.h:76-81 | w and b, KQkq, and a dash for no right |
| Fen.KeyFromAnyText | app/include/libchess/Position/Utilities.h:199-270 | so for every root read from a text, well-formed or not |
| Fen.OmissionFromText | app/include/libchess/Position/MoveGeneration.h:248-262 | a text whose position is a sound root and whose legal move list lacks a safe pseudo-legal move |
| Kernels.ChangeReorder | app/src/nnue_kernels.h:93-144 | the sum a batch adds to a lane does not depend on its order |
| Kernels.ApplyScalar | app/src/nnue_kernels.h:228-243 | the reference loop, truncating at every step, adds the batch modulo 2^16 to every lane of both accumulators |
| Kernels.WidenedIsExact | app/src/nnue.cpp:278-320 | zero-widened lanes never saturate and narrowing recovers the wrapped sum |
| Kernels.PieDual | app/src/nnue.cpp:322-415 | one fused kernel equals the scalar fold of its rows |
| Kernels.DrainSingles | app/src/nnue_kernels.h:110-121 | draining a batch one row at a time equals the scalar fold |
| Kernels.ChooseShape | app/src/nnue_kernels.h:123-161 | the fused shape and its tail are a rearrangement of the batch |
| Kernels.ApplyShapes | app/src/nnue_kernels.h:89-167 | for every batch and every order the decomposition gives the scalar result |
| Weights.PairedSourceInjective | app/src/nnue.cpp:170-184 | the pairing maps elements one to one |
| Weights.PermuteRows | app/src/nnue.cpp:186-192 | copies rows into the paired order |
| Weights.PermuteRowsInPlace | app/src/nnue.cpp:194-215 | cycle following terminates and produces the paired order in place, for every row width |
| Weights.PairedUnique | app/src/nnue.cpp:186-215 | in-place and out-of-place pairing give the same table |
| Weights.InitPermSquare | app/src/nnue.cpp:232-247 | the square-major permutation and its inverse undo each other |
| Weights.ReorderBySquareInPlace | app/src/nnue.cpp:248-270 | every row ends at its square-major place, or nothing moves when the temporary table is not granted |
| Weights.BuildInPlace | app/src/nnue.cpp:668-671 | with the temporary table granted, the board table built in place holds every flat row where the look-up expects it; without, it is the paired table, which the look-up misreads as soon as two named rows differ |
| Weights.UnclusteredExactly | app/src/nnue.cpp:248-270 | a table left in paired order serves the look-up if and only if the reordering would not change it, and never when flat rows 1 and 6 differ |
| Weights.BuildOutOfPlace | app/src/nnue.cpp:700-703 | so does the desktop table |
| Weights.PushDelta | app/src/nnue.cpp:767-800 | with or without the reordered table, a piece resolves to its two flat rows, one seen from each side |
| Weights.FlipMeaning | app/src/nnue.cpp:165-174 | seen from the other side a square keeps its file and its rank counts from the other end |
| Weights.FeatureRowMeaning | app/src/nnue.cpp:767-800 | the row of every piece from either side in coordinates: Black sees a piece where White sees it with colours and ranks exchanged |
| Evaluator.Eval.Reset | app/src/nnue.cpp:720-724 | both accumulators hold the bias, the value of an empty board |
| Evaluator.Set | app/src/nnue.cpp:726-750 | with at most 32 pieces both accumulators are the bias plus the flat rows of all pieces modulo 2^16; with more, of the first 32 by type, colour and square |
| Evaluator.Fresh | app/src/nnue.cpp:714-718 | a new evaluator set up for a board of at most 32 pieces matches it |
| Evaluator.Collect | app/src/eval.cpp:62-162 | each move records at most four events, and they turn the board into the board after the move |
| Evaluator.JournalAccounts | app/src/eval.cpp:62-73 | the recorded events account for the whole change of any per-piece total |
| Evaluator.MakeMove | app/src/eval.cpp:37-183 | accumulators that match the board still match it after the move, the position is the moved one, and the journal leads from one board to the other |
| Evaluator.InverseUndoes | app/src/eval.cpp:185-202 | the inverse batch takes every total back |
| Evaluator.UnmakeMove | app/src/eval.cpp:185-205 | undoing with the journal restores the position and accumulators that match it, within four slots |
| Evaluator.AccumulatesUnique | app/src/nnue.cpp:726-750 | a board determines both accumulators |
| Evaluator.Run | app/src/eval.cpp:37-205 | after any nesting of moves, null moves and unmakes from a sound position the accumulators are the bias plus the flat rows of the board reached, which has no more pieces than the root; at depth zero they are the original ones |
| Evaluator.RunMatchesFresh | app/src/test.cpp:26-29 | from at most 32 pieces, after any such run both accumulators are element for element those of an evaluator newly set up for the board reached |
| See.ExchangeBounds | app/src/search.cpp:276-309 | in every position, x-rays included, a capture is worth at least captured minus moving value and at most the captured value |
| Exchanges.AtRisk | app/src/search.cpp:289-306 | the moving value is that of the piece on the target after the move, promoted or not; the captured value is that of the piece taken; and the occupancy is that of the board after the move |
| Exchanges.NetBounds | app/src/search.cpp:276-309 | a capture nets between the piece taken minus the piece then on the target and the piece taken |
| Exchanges.ShortExchanges | app/src/search.cpp:239-309 | nobody can take back: the piece taken; somebody but the king can and nobody answers: that minus the piece then on the target; only the king can and is answered: the piece taken |
| Exchanges.QuietGain | app/src/search.cpp:282-288 | a move that takes nothing gains the worth of the piece on the target over the one that moved |
| Exchanges.VictimIsTaken | app/src/search.cpp:112-147 | the victim move ordering scores by is the piece that leaves the board |
| See.DepthGuardUnreachable | app/src/search.cpp:239-245 | with at most 32 men the depth guard never fires |
| See.CheaperFirst | app/src/search.cpp:253-274 | capturing with a cheaper piece is never worse than with a dearer one |
| See.UncoversExactly | app/src/search.cpp:239-274 | no capture ever uncovers an attacker if and only if no slider in line with the target has only attackers in its way |
| See.SeeIsMinimax | app/src/search.cpp:239-274 | when no slider stands behind the attackers, the greedy recursion equals full minimax over all capture orders, king rule included |
| See.ExchangeIsMinimax | app/src/test.cpp:68-91 | `see` equals its brute-force reference on every move that leaves no slider behind the attackers of its target |
| See.GreedyIsNotAlwaysBest | app/src/test.cpp:33-91 | a capture, by a knight, that `see` values at 280 and the brute-force reference at 180: the greedy pawn recapture uncovers a backed bishop |
| Noisy.OverratedCaptureIsLegal | app/src/test.cpp:68-91 | the capture they disagree on is legal in a sound position |
| Noisy.NoisyMoves | app/src/search.cpp:222-230 | outside check quiescence search lists exactly the pseudo-legal captures and promotions, capture promotions twice and every other move once |
| Noisy.QuiescenceMoves | app/src/search.cpp:218-230 | in check it lists the evasions, otherwise those |
| Noisy.TriedIsTested | app/src/search.cpp:427-428 | on the listed moves the pin test alone decides membership in the legal move list |
| Noisy.InsufficientMaterial | app/src/search.cpp:178-216 | the cascade of tests says draw exactly for kings with bishops of one square colour only, or with a single knight |
| Noisy.DeadStaysDead | app/src/search.cpp:178-216 | material that draws stays so through every pseudo-legal move |
| Noisy.IsDrawnHere | app/src/search.cpp:333 | drawn at 100 half-moves, on the first repetition, or by material |
| Noisy.ExchangeRec | app/src/search.cpp:239-274 | the recursion on the boards is `See.SeeRec` |
| Noisy.ExchangeValue | app/src/search.cpp:276-309 | so is `see` the exchange value of the mailbox |
| Quiescence.SelectNext | app/src/search.cpp:411-419 | each selection step brings the best remaining move forward and only permutes the list |
| Quiescence.MateExit | app/src/search.cpp:453-454 | leaving early at a mate score answers every window up to the mate clamp |
| Quiescence.Search | app/src/search.cpp:311-489 | for every window the fail-soft result bounds or equals stand-pat minimax over the same moves, up to the mate clamp, and lies within the mate distance of the ply |
| BoardSearch.EdgesOfTree | app/src/search.cpp:359-411 | any list of exactly the moves tried stands for the edges of the node, whatever its order and repetitions |
| BoardSearch.Evaluate | app/src/nnue.cpp:752-758 | the value is the output layer over the accumulators with that of the side to move first, and equals the value from scratch |
| BoardSearch.SearchedBelow | app/src/search.cpp:395-470 | in the tree a position is worth at least what each legal move searched leads to: every evasion, and every capture or promotion that loses no material |
| BoardSearch.ValueAttained | app/src/search.cpp:355-470 | and exactly standing pat, or one of them, or a mate at this ply |
| BoardSearch.QuiescenceSearch | app/src/search.cpp:311-489 | in place, from every sound position and for every window: make, search and unmake answer for minimax over the tree of reached positions, each valued from scratch, and leave position and evaluator in step and as they were; at the depth limit, in a drawn position and without a legal move in check the score is the one named, and outside check never below standing pat |
| BoardSearch.Quiesce | app/src/search.cpp:311-489 | so with both accumulators element for element as before |
| Histories.GravityHolds | app/src/search.cpp:491-535 | one update stays within 1023 either way, truncation included, and never moves against its bonus |
| Histories.GravityMoves | app/src/search.cpp:491-535 | a bonus that is not zero moves every value not already at that end |
| Histories.Update | app/src/search.cpp:491-535 | one cell changes, by the gravity rule, and the sum fits sixteen bits |
| Histories.LearnedInRange | app/src/search.cpp:491-535 | no run of updates from zeroed tables leaves the range |
| Histories.IndicesExact | app/src/search.cpp:63-82 | every index is inside its table and different keys have different cells |
| Histories.MoveEvaluater | app/src/search.cpp:95-170 | pinned-first moves score down from the top, every other move the sum of its promotion, capture or table terms, a missing table counting as zeros |
| Histories.OrderingIsStable | app/src/search.cpp:95-170 | whatever the tables hold, nothing outranks a pinned-first move, a plain capture of a greater piece type outranks one of a lesser, and any of more than a pawn outranks every quiet move |
| Histories.LearnedParts | app/src/search.cpp:63-170 | which cells a score reads, by side, type and squares, and with what weight |
| Histories.AttackersAreOrdered | app/src/search.cpp:125-150 | of captures of the same type the cheaper attacker goes first when as much was learned, and what was learned orders captures by the same piece |
| Histories.PromotionsAreOrdered | app/src/search.cpp:112-118 | a promotion outranks every quiet move, and one to a dearer piece one to a cheaper |
| Tt.IndexBounds | app/src/tt.cpp:135-149 | the range reduction stays in bounds |
| Tt.ReplaceSlot | app/src/tt.cpp:223-241 | a matching tag is reused, otherwise the slot of lower depth minus four times its age, the first on a tie |
| Tt.VictimMeaning | app/src/tt.cpp:223-241 | of two entries of other positions the older goes at equal depth, the shallower at equal age, and one generation weighs four plies |
| Tt.Table.Lookup | app/src/tt.cpp:153-192 | front cache first, then the main table with promotion, on the arrays themselves |
| Tt.Table.Store | app/src/tt.cpp:243-293 | both overloads write the main table and mirror into the front cache |
| Tt.Table.NewSearch | app/src/tt.cpp:295-300 | generations run 1, 2, 3, 1 |
| Tt.Table.Reset | app/src/tt.cpp:125-133 | both levels are zeroed |
| Tt.Table.SetSize | app/src/tt.cpp:105-113 | a fresh table of the slots granted, whichever allocation fails, the board fallback included, and from their number whether a superseded entry can ever be returned |
| Tt.RunIsOrdered | app/src/tt.cpp:125-300 | in every run slots copy the store they came from and a written second slot never shares its tag with the first |
| Tt.LookupAfterStore | app/src/tt.cpp:153-293 | a lookup right after a store returns it, with the old move where the store gave none |
| Tt.LookupPromotes | app/src/tt.cpp:153-192 | a lookup changes no answer for its hash, and afterwards the front cache gives it |
| Tt.StoreTouchesOne | app/src/tt.cpp:243-293 | a store changes no slot outside the pairs of its hash, and both levels then answer with it |
| Tt.OwnHitIsCurrent | app/src/tt.cpp:153-192 | a hit written by the hash asked for is the last store of that hash, for every size |
| Tt.NeverStaleExactly | app/src/tt.cpp:153-293 | no run ever returns a superseded entry if and only if there is no front cache, the main pairs are a multiple of the front pairs, or main pairs times 65536 reach the range of the hash; for both word sizes |
| Tt.RefinesExactly | app/src/tt.cpp:135-149 | sharing main pair and tag implies sharing the front pair exactly under those two conditions on the number of pairs |
| Tt.StaleRun | app/src/tt.cpp:170-190 | with two hashes that share main pair and tag but not the front pair, a store, a look-up of the other hash and a second store leave a stale copy that is returned |
| Tt.MultipleRefines | app/src/tt.cpp:135-149 | a main table with a multiple of the front pairs satisfies the condition |
| Tt.WholeMegabytesNeverStale | app/src/tt.cpp:105-113 | every whole number of megabytes does |
| Tt.SmallestCanBeStale | app/src/tt.cpp:105-113 | the smallest table does not |
| Tt.MoveRoundTrip | app/src/tt.cpp:194-217 | a move survives its 18 bits |
| Tt.ScoreRoundTrip | app/src/tt.cpp:311-327 | a score survives the mate adjustment and sixteen bits at the same ply |
| Tt.MateDistanceKept | app/src/tt.cpp:311-327 | stored at one ply and read at another, a mate stays as far from the position it was found in, any other score stays itself |
| Web.Server.HandleState | app/src/web.cpp:355-379 | polling writes only a flag fall, and shows frozen clocks while paused |
| Web.Server.HandleMove | app/src/web.cpp:595-820 | guards, retry number, charge, forfeit, and the start of a worker or of the blocking search |
| Web.Server.WorkerEnds | app/src/web.cpp:747-809 | a worker that lands is dropped, re-anchors or writes its reply |
| Web.Server.MoveReturns | app/src/web.cpp:820-901 | the blocking search re-anchors, is dropped or writes its reply |
| Web.Server.HandleNew | app/src/web.cpp:982-1008 | the seat decision and the new generation |
| Web.Server.NewReturns | app/src/web.cpp:1007-1052 | the fresh session, or nothing when the engine is busy |
| Web.Server.HandleYield | app/src/web.cpp:1116-1148 | the seat is freed and a finished game cleared |
| Web.Server.YieldReturns | app/src/web.cpp:1148-1155 | clocks, anchor and flags of the cleared game |
| Web.Server.HandleResign | app/src/web.cpp:1160-1195 | the result is forced and the generation moves on; safety stays |
| Web.Server.HandlePause | app/src/web.cpp:1198-1230 | pausing is refused during a search, a pause or after the game; it keeps log, clocks, anchor and safety |
| Web.Server.HandleResume | app/src/web.cpp:1232-1258 | the anchor moves forward by the time paused, so the turn has used up as much as before; log and clocks stay |
| Web.StepKeepsSafe | app/src/web.cpp:547-1258 | every handler step and every landing keeps: at most one current worker, its presence implies searching and unpaused, clocks not negative |
| Web.RunIsSafe | app/src/web.cpp:547-1258 | so in every reachable state |
| Web.ReachableIsSafe | app/src/web.cpp:547-1258 | every state reached from the initial session is safe |
| Web.StaleWritesNothing | app/src/web.cpp:750-767 | a worker of an older generation only disappears |
| Web.PauseFreezes | app/src/web.cpp:1198-1257 | from a pause until resume, new game or reset, log, clocks and anchor stay, whatever arrives or lands |
| Web.TurnConserves | app/src/web.cpp:1225-1255 | within a turn the anchor drifts by exactly the time paused and no clock moves while the game goes on |
| Web.MoveIsChargedItsTurn | app/src/web.cpp:677-712 | a booked move is charged wall time since its turn began minus all paused time, floored at zero, then credited unless flagged |
| Web.RetryIsFree | app/src/web.cpp:680-685 | a repeated request number charges nothing |
| Web.PollOnlyFlags | app/src/web.cpp:361-379 | a poll changes the session only by declaring the mover's flag, once unpaused time has used the clock up |
| Web.PauseShowsTimeLeft | app/src/web.cpp:375-384 | the clock shown during a pause is what is left on resuming |
| Web.StrangersOnlyQueue | app/src/web.cpp:137-146 | while the holder is paused or lately active, a named stranger can change nothing but the waitlist |
| Web.ResignerLoses | app/src/web.cpp:1160-1195 | the holder of the seat, and nobody else, ends a running game by resigning, and loses it |
| Web.TimeLoses | app/src/web.cpp:361-720 | a game ends by a reply that says so, by resignation, or by time: then one clock is at zero and the other side has won |
| Web.PollFlagsMover | app/src/web.cpp:361-379 | a poll that ends the game ends it for the side to move |
| Web.LateMoveLoses | app/src/web.cpp:686-712 | a booked move that comes too late loses for the human |
| Web.ReplyIsCharged | app/src/web.cpp:770-805 | a booked reply charges the engine alone, credits it the increment, appends its move, and loses for it when its time is out |
| Web.PollFlagsExactly | app/src/web.cpp:361-379 | a poll ends a running game exactly if the turn has begun, the game is not paused and the mover has used up the clock |
| Web.MoveFlagsExactly | app/src/web.cpp:686-712 | a move ends a running game exactly if it is booked and the human has used up the clock |
| Web.ReplyIsFree | app/src/web.cpp:770-805 | a reply of a repeated request, after the end, or without a result moves no clock; only a reply that ends the game changes the result |
| Web.LandingWrites | app/src/web.cpp:745-807 | a worker of the current game charges the side the engine had when it was asked, appends the move and ends the search |
| Web.CallWrites | app/src/web.cpp:813-902 | the blocking search writes its reply if its game is still on, and nothing otherwise |
| Web.TimeoutReanchors | app/src/web.cpp:750-770 | a search that timed out charges nobody and the turn begins again |
| Web.RefusedChangesNothing | app/src/web.cpp:610-680 | a move request of a stranger, during a pause or a search, or already answered, changes nothing |
| Web.MoveStartsEngine | app/src/web.cpp:686-820 | a booked move in time starts the engine in this generation and leaves the other clock and the result as they were |
| Web.SeatDecision | app/src/web.cpp:982-1008 | who may start a new game, and that everybody else changes nothing |
| Web.NewGameIsFresh | app/src/web.cpp:1010-1052 | a new game starts empty, unpaused and unfinished with both clocks at its base; a base or increment given alone leaves the other |
| Web.YieldDecision | app/src/web.cpp:1116-1135 | who may free the seat |
| Web.YieldFreesSeat | app/src/web.cpp:1130-1155 | the seat is free afterwards and a finished game cleared, an unfinished one untouched |
| Web.PauseAndResume | app/src/web.cpp:1198-1257 | by whom and when a game is paused and resumed, and everything that changes |
| Web.QueueLaws | app/src/web.cpp:1087-1112 | the waitlist never names anyone twice, joining goes to the end, leaving takes out only the one who leaves |
| Web.ResultKeptExactly | app/src/web.cpp:781-797 | a finished game keeps its result through a step if and only if the step is not a differing end-of-game reply, an installed new game or a reset |
| Web.ResultCanChange | app/src/web.cpp:781-797 | a run from the initial session, new game, flag fall, move, in which a reply that ends the game replaces the result |
| Web.SearchingMatchesExactly | app/src/web.cpp:1182-1184 | `searching` keeps matching a current worker through a step if and only if the step does not start a generation under a running search |
| Web.SearchingWithoutWorker | app/src/web.cpp:1182-1184 | a run from the initial session, new game, move, resignation, after which `searching` has no current worker |
| Book.Scan | app/src/book.cpp:176-198 | one direction collects exactly the legal entries of the run of equal keys, nearest first, on any book |
| Book.Heaviest | app/src/book.cpp:230-243 | the first of the heaviest: none is heavier, every earlier one is lighter |
| Book.ProbeExact | app/src/book.cpp:207-221 | on a readable, sorted book the binary search hits the key if and only if it is there |
| Book.Query | app/src/book.cpp:200-261 | terminates with no answer exactly when the search hits nothing, otherwise with the one choice: heaviest of the hit and the legal entries around it, and of equals the hit, then the nearest before it, then after it; on any book |
| Book.ChosenUnique | app/src/book.cpp:230-257 | there is only one such choice |
| Book.AnswerMeaning | app/src/book.cpp:200-261 | on a readable, sorted book: nothing exactly when the key is absent, otherwise an entry of the key at least as heavy as every legal one |
| BookMoves.DecodeEncoded | app/src/book.cpp:119-174 | every pseudo-legal move comes back from its book bits, castling through the rook square, promotions with their piece, en passant as a plain pawn move |
| BookMoves.CodeFields | app/src/book.cpp:119-174 | which bits of an entry are target, source and promotion, and that castling names the rook |

## Left out

- See.ExchangeIsMinimax: one direction only, as `See.SeeIsMinimax`; some positions with a slider behind the attackers still agree, and no simple condition on the board separates them.
- BoardSearch.QuiescenceSearch: the transposition-table stores at app/src/search.cpp:474-486, which `qs` never reads, and the counters are not modelled; the output layer is any function of the two accumulators within the clamped range.
- Fen.Parse: a text whose pieces land off the board, or different ones on one square, gives no position here; the code shifts by more than a word in the first case and goes on with boards that encode no mailbox in the second.
- Book.Query: the legality of an entry's move is a parameter, which `BookMoves.Decode` and `Acceptance.IsLegalMove` would fill; the entry the binary search hits first is, as in the code, not checked for legality. Assertions and empty optionals in the decoding count as no move.
- Acceptance.AcceptsExactly: castling whose promotion bits name a king, which no encoder writes, is not covered; `Acceptance.IsLegalMove` covers it.
- The update loop of the statistics inside the full search is represented by runs of single updates.
- Repetition.RepeatCountExact: needs that no two different positions of the game share a key; a collision makes the count too high, never too low.
- Web.StepKeepsSafe: handlers and landings are atomic between their blocking calls; the handlers that do not take the session lock could interleave with a landing at a finer grain.
- Full search, its reductions and time control: heuristic, without a specification.
- Counters of plies, full moves and half-moves are unbounded integers.
- Negative half-move counters, which only a text with a minus sign produces, are outside the repetition results.
- Sliding attacks are ray walks; the multiplication tables that cache them are a finite table.
- SIMD and board kernels are modelled by what they do to each lane; the final dot product and scaling are not modelled.
- The stop flag that cuts a quiescence search short when time runs out.
- The board-only stack guard of quiescence search, watchdog, LEDs and serial output.
- The loop by which the board's allocator shrinks its request until it is granted, and what its unsigned counter does below zero.
- Races on the shared table; the table is sequential here.
- Handshake of the searcher threads, HTTP and JSON parsing, file serving, text interfaces, tablebases.
