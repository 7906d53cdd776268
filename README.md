# Klondike engine of a Pebble Solitaire app, in Dafny

This project models the rules engine of a Pebble Klondike Solitaire app (`src/solitaire.c`). The C engine keeps all of its state in globals:

- the stock and its talon window (`stock`, `stock_count`, `talon`, `talon_showing`, `flips`);
- the four foundation tops;
- the seven tableau piles, each with a face-down count;
- the selection cursor (`mode`, `selection`, `source`);
- `win`, `score` and `seed`;
- the draw, flip-limit and score-visibility settings.

The model has two layers:

- **Specification on values.** These modules are pure:
  - `Cards` holds the card encoding: rank `card >> 2`, suit `card % 4`, colour `suit >> 1`, and -1 for no card.
  - `Rules` holds the board as a datatype, the legality predicates, the transitions (remove, tableau move, foundation move, auto-sweep, stock draw, deal) and the board invariant with its preservation and card-conservation lemmas.
  - `Selection` holds the cursor automaton: `select_talon`, both loops of `select_next_valid_pile` (including the wrap-around cycle detection), and `select_valid_pile`. It models the writes to `source` made by `source_pile_is_valid`.
  - `Commands` holds the four button handlers on the whole play state.
  - `Rng` holds the generator and the Fisher–Yates pass.
  - `Codec` holds the 82-byte saved layout.
- **The engine as it runs.** `Klondike.Game` is a class whose fields are the C globals. The fixed-size buffers are arrays (`tableau` is an `array2` of 7 × 19). Each C function is a method, with its loops: the stock shift, the run append, the foundation scan, the sweep, the cursor loops, the swap loop, the deal loops and the byte packing. Each method is proved to leave exactly the board, cursor or bytes that the value-level model computes from the old state. The handlers also keep `Valid()`.

The board invariant (`Rules.Inv`) says:

- the counts fit their arrays;
- every card is 0..51;
- each pile has at most six face-down cards, and a non-empty pile has a face-up top;
- the face-up part of each pile is a descending run of alternating colours;
- the talon window lies inside the stock, except in the one case the engine allows: the card at `talon == 0` was played in draw-three mode.

From the invariant the model proves that a pile never outgrows its 19 slots and that no array index in the engine leaves its array.

## Model

| member | source | states |
|---|---|---|
| `Cards.Rank` | src/solitaire.c:163-168 | the rank `card >> 2` recombines with the suit into the card; it is at most 12 for a card; it is 12 exactly for cards 48..51 |
| `Cards.Colour` | src/solitaire.c:168 | `suit >> 1` is 0 exactly for spades and clubs, and 1 exactly for hearts and diamonds |
| `Cards.RankSuitDetermineCard` | src/solitaire.c:204-205 | two cards with the same rank and suit are the same card |
| `Rules.SourceCard` | src/solitaire.c:105-121 | get_source_card yields a card or -1. It yields a card exactly when the source is a non-empty tableau pile, or the talon with `talon_showing < stock_count` |
| `Klondike.Game.GetSourceCard` | src/solitaire.c:105-121 | the C function reading the arrays returns `Rules.SourceCard` of the board they hold |
| `Klondike.Game.TableauRulesMet` | src/solitaire.c:155-181 | reads the destination from `selection`. It accepts exactly: a card one rank lower and of the other colour on a non-empty pile, or a King on an empty pile when `king_allowed_on_empty` holds |
| `Rules.KingNeverOnNonEmpty` | src/solitaire.c:161-178 | a King is never legal on a non-empty pile, whatever `king_allowed_on_empty` says |
| `Klondike.Game.MultipleCardsAreShowing` | src/solitaire.c:183-186 | true exactly when the pile is non-empty and does not have exactly one face-up card |
| `Klondike.Game.CanMoveSingleCardToTableau` | src/solitaire.c:188-208 | legal exactly when source ≠ destination, a source card exists, and the tableau rules with King-on-empty allowed accept it |
| `Klondike.Game.CanMovePileToTableau` | src/solitaire.c:210-226 | legal exactly when the source is another tableau pile showing more than one face-up card, and its bottom face-up card is accepted. A King goes on an empty pile only if face-down cards were under it |
| `Klondike.Game.CanMoveToTableau` | src/solitaire.c:228-231 | returns `Rules.CanMoveToTableau`: the single-card move or the run move is legal |
| `Rules.SingleAndPileExclusive` | src/solitaire.c:237-250 | the single-card and whole-run moves are never both legal onto the same pile, so the single-card preference of move_to_tableau never hides a run move |
| `Rules.FirstAcceptingIsFirst` | src/solitaire.c:274-297 | the foundation scan returns a slot that accepts the card, and no earlier slot accepts it |
| `Rules.FoundationSlotSpec` | src/solitaire.c:254-300 | can_move_to_foundations gives 4 without a source card. Otherwise it gives the first slot that is empty with the card an Ace, or holds the same suit one rank lower. It gives 4 when no slot qualifies |
| `Klondike.Game.CanMoveToFoundations` | src/solitaire.c:254-300 | the early-break scan over the four slots returns `Rules.FoundationSlot` |
| `Klondike.Game.TableauFlipTopCard` | src/solitaire.c:123-129 | the face-down count drops by one exactly when it is positive and equals the pile's card count |
| `Klondike.Game.ShiftStock` | src/solitaire.c:136-139 | the shift loop removes exactly card `k` from the live stock and keeps the order of the others |
| `Klondike.Game.RemoveSourceCard` | src/solitaire.c:131-153 | the arrays afterwards hold `Rules.RemoveCard` of the old board. From the talon, the card is cut out of the stock, and `talon_showing` (else `talon`) shrinks only when `talon > 0`. From a pile, the count drops and a newly bared top is flipped |
| `Rules.RemoveCardKeepsInv` | src/solitaire.c:131-153 | removing the source card keeps the board invariant, including the face-up top of every non-empty pile, and leaves the foundations alone |
| `Rules.RemoveCardConserves` | src/solitaire.c:131-153 | exactly the source card leaves the stock and tableau |
| `Klondike.Game.CopyRun` | src/solitaire.c:244-247 | the append loop puts cards `from..count-1` of the source pile, in order, on top of the destination pile, and changes no other pile |
| `Klondike.Game.MoveToTableau` | src/solitaire.c:233-252 | the arrays afterwards hold `Rules.MoveToTableau`: the single card if legal, else the whole face-up run with the source cut to its face-down count and its top flipped, else nothing |
| `Rules.MoveToTableauKeepsInv` | src/solitaire.c:233-252 | both branches keep the board invariant: face-down count at most the pile size, a face-up top on every non-empty pile, face-up runs. The foundations are unchanged |
| `Rules.MoveToTableauConserves` | src/solitaire.c:233-252 | a tableau move keeps the multiset of cards in the stock and tableau |
| `Rules.PileWithinCapacity` | src/solitaire.c:59 | a pile that keeps the invariant holds at most 19 cards, so `tableau[7][19]` never overflows |
| `Klondike.Game.AllFoundationsKings` | src/solitaire.c:320-324 | the win scan is true exactly when every foundation top is at least 48 |
| `Klondike.Game.MoveToFoundation` | src/solitaire.c:302-332 | succeeds exactly when can_move_to_foundations finds a slot. The board becomes `Rules.MoveToFoundation`. The score gains 5 on success. `win` is set, and one vibration pulse counted, exactly when a successful move leaves all four tops at 48 or above |
| `Rules.MoveToFoundationEffect` | src/solitaire.c:309-317 | the source card lands on exactly the chosen slot and raises it; the other slots are unchanged; the card leaves the stock and tableau |
| `Rules.FoundationMonotone` | src/solitaire.c:302-332 | no foundation move lowers any foundation top |
| `Rules.KingsAcceptNothing` | src/solitaire.c:274-297 | once all four tops are Kings, no card can go to a foundation |
| `Rules.OfferSpec` | src/solitaire.c:341-346 | a sweep turn that moves takes exactly one tableau card; a turn that does not move leaves the board unchanged |
| `Rules.PassUpToSpec` | src/solitaire.c:340-347 | a sweep pass keeps the invariant, the stock and the talon window, and never raises the tableau size. It reports a move exactly when a tableau card went. Without a move, none of the piles it visited could give a card |
| `Rules.Sweep` | src/solitaire.c:334-349 | the sweep terminates (each repeated pass removes a tableau card). Afterwards no tableau top can move to a foundation, the stock is untouched, no card appears and no foundation goes down |
| `Klondike.Game.AutomaticallyMoveToFoundations` | src/solitaire.c:334-349 | the do-while loop leaves the board and `source` that `Rules.Sweep` computes. The score gains 5 per card moved. `win` is set when a move completed the four Kings. One vibration pulse is counted exactly when the sweep moved a card and all four tops are Kings, so the alert fires at most once |
| `Klondike.Game.SweepOnePass` | src/solitaire.c:340-347 | one pass over the seven piles equals `Rules.SweepPass` and reports whether a card moved |
| `Rules.DrawOutcomes` | src/solitaire.c:351-372 | nothing changes unless `stock_count > talon_showing + 1`. At the end of the window a re-deal sets `talon` to 0 and counts a flip when the limit allows, and the state is unchanged when it does not. Otherwise `talon` advances by `talon_showing + 1`. In draw-three mode the window becomes `min(2, stock_count - talon - 1)` |
| `Rules.DrawKeepsInv` | src/solitaire.c:351-372 | a draw keeps the invariant. After any change, `talon + talon_showing < stock_count`. Only the talon window moves |
| `Rules.FlipLimitEnforced` | src/solitaire.c:356 | limit settings 1, 2 and 3 never let the flip count pass 0, 1 and 3 re-deals; setting 1 never re-deals |
| `Klondike.Game.DealCardFromStock` | src/solitaire.c:351-372 | the C assignments yield exactly `Rules.DrawFromStock` of the old board, draw setting, flip limit and flips |
| `Selection.TableauScanFinds` | src/solitaire.c:391-399 | the tableau scan of source_pile_is_valid finds a pile exactly when some tableau pile can take the source, and it finds the first |
| `Selection.SourceValidMeans` | src/solitaire.c:377-403 | a source is valid exactly when it is the talon, or its card can go to a foundation or onto some tableau pile |
| `Klondike.Game.SourcePileIsValid` | src/solitaire.c:377-403 | returns `SourceValid`. It overwrites `source` with the selection (except on the talon), and restores `selection` after using it as the loop variable |
| `Klondike.Game.ScanTableau` | src/solitaire.c:391-400 | the loop over `selection` stops on the first pile that can take the source card, or runs to 7 |
| `Klondike.Game.DestinationPileIsValid` | src/solitaire.c:430-439 | the foundations are valid exactly when a slot accepts the source card; a tableau pile is valid exactly when a tableau move from `source` to it is legal |
| `Selection.SelectTalonSpec` | src/solitaire.c:405-428 | does nothing once won. Otherwise it ends in source mode. It picks the talon exactly when the stock has cards or no tableau pile is a valid source. Otherwise it picks the first valid tableau pile, which also becomes `source` |
| `Klondike.Game.SelectTalon` | src/solitaire.c:405-428 | the C function moves the cursor exactly as `Selection.SelectTalon` |
| `Klondike.Game.ScanSources` | src/solitaire.c:416-424 | the pile loop of select_talon finds the first valid source. Each pile checked becomes `source`, so a failed scan leaves `source` at 6 |
| `Selection.SourceScanSpec` | src/solitaire.c:446-462 | the source-mode loop terminates in source mode, on the talon or on a valid tableau source |
| `Klondike.Game.NextSource` | src/solitaire.c:446-462 | the `while (true)` loop ends with the cursor `Selection.SourceScan` computes |
| `Selection.DestStepAdvances` | src/solitaire.c:466-472 | the destination step walks the cycle 0..6, 8 one position at a time and skips the talon |
| `Selection.DestScanSpec` | src/solitaire.c:463-487 | the destination loop terminates. It stays in destination mode only on a valid destination for the same source. When it falls back to source mode, every candidate it passed was invalid |
| `Selection.NextDestSpec` | src/solitaire.c:463-487 | destination mode falls back to source mode (through select_talon) exactly when no destination in 0..6, 8 is valid. Otherwise it stops on a valid one with `source` kept |
| `Klondike.Game.NextDestination` | src/solitaire.c:463-487 | the `while (true)` loop with its `wrapped` sentinel ends with the cursor `Selection.NextDest` computes |
| `Selection.SelectNextSpec` | src/solitaire.c:441-490 | select_next_valid_pile leaves the cursor in range. In source mode it rests on the talon or a valid source. In destination mode it rests on a valid destination of the same source |
| `Klondike.Game.SelectNextValidPile` | src/solitaire.c:441-490 | the C function moves the cursor exactly as `Selection.SelectNext` |
| `Selection.SelectValidKeepsValid` | src/solitaire.c:492-503 | a selection that is already valid keeps its mode and pile |
| `Selection.SelectValidSpec` | src/solitaire.c:492-503 | select_valid_pile leaves the cursor in range. From source mode it rests on the talon or a valid source. In destination mode it rests on a valid destination of the unchanged source |
| `Klondike.Game.SelectValidPile` | src/solitaire.c:492-503 | the C function moves the cursor exactly as `Selection.SelectValid` |
| `Commands.Up` | src/solitaire.c:508-518 | the up handler is a no-op once won; otherwise it changes only the cursor |
| `Klondike.Game.Up` | src/solitaire.c:508-518 | the handler keeps `Valid()` and changes the play exactly as `Commands.Up` |
| `Commands.FoundationMove` | src/solitaire.c:302-332 | on the whole play, a foundation move keeps the invariant and scores 5 exactly when a slot accepted the card |
| `Commands.SelectFromSource` | src/solitaire.c:527-533 | select in source mode never changes the board. An invalid pile only becomes `source`. From a valid pile the cursor either rests on a valid destination for that pile or falls back to source mode |
| `Commands.SelectFromDestination` | src/solitaire.c:534-544 | select in destination mode ends in source mode. On the foundations it makes the foundation move, scoring 5 exactly when a card moved. On a tableau pile it keeps every card and the score |
| `Klondike.Game.Select` | src/solitaire.c:521-546 | the handler keeps `Valid()` and changes the play exactly as `Commands.Select`. One vibration pulse is counted exactly when the handler wins the game |
| `Commands.DownSpec` | src/solitaire.c:548-559 | down on a game not yet won ends in source mode. It changes only the talon window, and only in source mode. A limited flip setting caps the re-deals |
| `Klondike.Game.Down` | src/solitaire.c:548-559 | the handler keeps `Valid()` and changes the play exactly as `Commands.Down` |
| `Commands.LongDownSpec` | src/solitaire.c:561-571 | after long down no tableau top can go to a foundation, the stock is unchanged, five points were scored per card moved, and the cursor is in source mode |
| `Klondike.Game.LongDown` | src/solitaire.c:561-571 | the handler keeps `Valid()` and changes the play exactly as `Commands.LongDown`. One vibration pulse is counted exactly when the handler wins the game |
| `Commands.UpKeepsPlay` | src/solitaire.c:508-518 | up keeps a legal play legal |
| `Commands.SelectKeepsPlay` | src/solitaire.c:521-546 | select keeps a legal play legal, including the one-deck bound and the closed draw-one window |
| `Commands.DownKeepsPlay` | src/solitaire.c:548-559 | down keeps a legal play legal |
| `Commands.LongDownKeepsPlay` | src/solitaire.c:561-571 | long down keeps a legal play legal |
| `Rng.Next` | src/solitaire.c:756 | the generator step keeps the seed in [0, 2^31) |
| `Rng.Top` | src/solitaire.c:757 | `seed >> 26` of a 31-bit seed is below 32 and brackets the seed |
| `Rng.RndFromBound` | src/solitaire.c:752-760 | the value rnd returns is at most `max`, unless every draw in the followed window was above `max` |
| `Rng.RndWideBound` | src/solitaire.c:751-760 | for any `max` of 31 or more (the "0-63" the comment allows) the first draw is always taken, since draws never exceed 31 |
| `Klondike.Game.Rnd` | src/solitaire.c:752-760 | the rejection loop returns the value and leaves the seed that `Rng.Rnd` computes |
| `Rng.Swap` | src/solitaire.c:774-777 | the swap exchanges two positions, keeps the others, and keeps the multiset |
| `Rng.ShuffleFrom` | src/solitaire.c:773-778 | the Fisher–Yates pass keeps the deck a permutation of what it started with |
| `Rng.PermutationHoldsEachOnce` | src/solitaire.c:770-778 | a permutation of 0..51 holds each card value exactly once |
| `Klondike.Game.Shuffle` | src/solitaire.c:769-778 | the swap loop on `deck` leaves the deck and seed of `Rng.ShuffleFrom` seeded with the clock, and `deck` is a permutation of 0..51 |
| `Rules.DealtInv` | src/solitaire.c:781-797 | the deal is a legal board. The stock is the first 24 cards; pile i has i+1 cards with i face down; stock and tableau together hold exactly the deck |
| `Klondike.Game.Deal` | src/solitaire.c:781-797 | the deal loops fill the arrays with `Rules.Dealt`: 24 stock cards, `talon` 0, window 2 in draw-three mode and 0 otherwise, empty foundations, triangular piles |
| `Commands.RedealSpec` | src/solitaire.c:762-802 | shuffle_and_deal gives a legal play holding every card once. The foundations are empty, the score drops by 52, flips and `win` are reset, and the cursor is in source mode on the talon |
| `Klondike.Game.ShuffleAndDeal` | src/solitaire.c:762-802 | with the clock reading as a parameter, the method keeps `Valid()` and yields `Commands.Redeal` of the shuffled deck |
| `Codec.ScoreRoundTrip` | src/solitaire.c:849 | the score's four bytes, least significant first, decode back to the same 32-bit score |
| `Codec.ToByte` | src/solitaire.c:827-848 | the `unsigned char` cast keeps a byte value and stores -1 as 255 |
| `Klondike.Game.PutTableau` | src/solitaire.c:835-842 | the packing loop writes each pile's counts at 6+i and 13+i, and its cards in order after the stock cards and the earlier piles |
| `Klondike.Game.SaveState` | src/solitaire.c:820-851 | the 82 bytes written are an image of the persisted fields in the documented layout |
| `Codec.Decode` | src/solitaire.c:853-893 | load_state fails exactly when the image does not have 82 bytes |
| `Codec.DecodeEncode` | src/solitaire.c:820-893 | decoding a saved image of a state gives back every field: stock, piles, counts, foundations (-1 via 255), talon, window, flips, win, settings and score. This holds for every state whose stock and tableau hold at most 52 cards, whose counts, face-down counts, cards, `talon`, window, flips and settings fit a byte, whose foundations are -1 or a card, and whose score fits 32 bits. The board need not be one a game reaches |
| `Codec.SavedIsLoadable` | src/solitaire.c:820-893 | what save_state writes for a legal state, load_state accepts and decodes to that state |
| `Klondike.Game.FillFromBytes` | src/solitaire.c:887-889 | the load loop copies a pile's bytes in order into its row and leaves the other rows alone |
| `Klondike.Game.LoadState` | src/solitaire.c:853-893 | with fewer or more than 82 bytes nothing changes. Otherwise every persisted field takes its decoded value and the cursor goes through select_talon |
| `Rules.ToggleAsWrittenBreaksWindow` | src/solitaire.c:950-955 | as written, on every legal board whose stock is used up (`stock_count == 0`, `talon == 0`), switching to draw-three sets the window to -1. The guard of get_source_card then passes, and it reads `stock[-1]` |
| `Rules.ToggleDrawKeepsInv` | src/solitaire.c:948-961 | the corrected toggle keeps the invariant. Switching to draw-one closes the window. With cards in the stock, switching to draw-three gives the same window as the code |
| `Klondike.Game.ToggleDraw` | src/solitaire.c:948-961 | the draw setting swaps between 0 and 1 and the window follows the corrected toggle |
| `Klondike.Game.CycleFlipLimit` | src/solitaire.c:962-966 | the flip limit cycles 0, 1, 2, 3 mod 4 |
| `Klondike.Game.CycleScoreVisibility` | src/solitaire.c:967-971 | score visibility cycles mod 2 |
| `Klondike.Game.ResetScore` | src/solitaire.c:981 | reset score sets the score to 0 and nothing else |

## Left out

- Rendering is not modelled: `draw_card`, the layer update callback, window load/unload and bitmaps, and every `layer_mark_dirty` call. None of it has rules content.
- The menus and the help/about text windows are not modelled, and neither are `click_config_provider`, `init`, `deinit` and `main`. Only the state changes of the settings and tools callbacks are modelled. The subtitle strings are UI.
- `vibes_short_pulse` is a device call. It appears only as the ghost counter `pulses`.
- `time(NULL)` is foreign I/O. `ShuffleAndDeal` takes the clock reading as a parameter.
- `persist_read_data` and `persist_write_data` are platform storage. Save yields a byte sequence and load consumes one.
- The platform copies the score in its native byte order. The model fixes four bytes, little-endian two's complement, and proves the round trip for 32-bit scores.
- `seed * 214013` overflows in C. The model computes the step exactly, modulo 2^31.
- Rng.Rnd: the rejection loop is followed for at most 2^31 draws, the generator's period. If every one of those draws were above `max`, the model returns the last draw. `Rng.RndFromBound` states the bound with that exception. That the generator reaches a value ≤ max within its period (a full-period property of the LCG) is not proved.
- Klondike.Game.LoadState: requires the 82 bytes to describe a legal board of at most one deck, with counts that keep every card inside the buffer. load_state checks only the length, and a corrupt image would overflow its arrays.
- `Rules.Inv` also requires the face-up part of each pile to be a run. That holds for every dealt and played board. The C code does not check it, and only relies on it (through the 19-card capacity).
- In four places the documented behaviour and the code differ, and the model follows the code. A fifth, the draw toggle, is a defect in the code; there the engine runs the corrected toggle (see the `Klondike.Game.ToggleDraw` line below and "## Findings"):
  - Load fails unless exactly 82 bytes are read. The documentation says "fewer than 82".
  - The talon window may reach past the end of the stock after the card at `talon == 0` is played in draw-three mode. The documented invariant says it never does.
  - Removing a talon card shrinks the window or `talon` only when `talon > 0`.
  - The sweep repeats full passes until a pass moves nothing.
- Klondike.Game.ToggleDraw: does not do what src/solitaire.c:950-955 does on a used-up stock. It clamps the new draw-three window at 0 where the code sets it to -1. `Rules.ToggleShowingAsWritten` models the code as written, and `Rules.ToggleAsWrittenBreaksWindow` shows the -1 window.

## Findings

| source | as written | input that shows it | evidently intended | confidence | as-written member | corrected member |
|---|---|---|---|---|---|---|
| src/solitaire.c:950-955 | switching to draw-three sets `talon_showing = stock_count - talon - 1`, capped at 2 but not at 0 | stock used up (`stock_count == 0`, `talon == 0`), draw setting switched to three cards: `talon_showing` becomes -1; `get_source_card` then passes its `stock_count < talon_showing + 1` guard and reads `stock[-1]` | the window clamped to 0..2 | high (not executed) | `Rules.ToggleAsWrittenBreaksWindow` | `Rules.ToggleDrawKeepsInv` |
