/**
 * The four button commands of the Klondike engine, as pure functions of
 * the state they read and change: the board, the cursor, the win flag, the
 * score and the count of re-deals.
 *
 *   up          the next valid pile
 *   select      pick the source, or complete the move to the selected destination
 *   down        deal from the stock (in source mode) or abandon the move; then the talon
 *   long down   sweep tableau cards to the foundations
 *
 * Every command is ignored once the game is won.
 */
module Commands {
  import opened Cards
  import opened Rules
  import opened Selection
  import Rng

  datatype Play = Play(board: Board, cursor: Cursor, win: bool, score: int, flips: int)

  /**
   * A state between two commands: a legal board holding at most one deck,
   * the cursor in range, the talon window closed in draw-one mode.
   */
  predicate PlayOk(p: Play, drawThree: bool) {
    Inv(p.board) && WithinDeck(p.board) && CursorOk(p.cursor) &&
    (!drawThree ==> p.board.talonShowing == 0) && 0 <= p.flips
  }

  /** The up button: the next valid pile. */
  function Up(p: Play): (r: Play)
    requires Inv(p.board) && CursorOk(p.cursor)
    ensures p.win ==> r == p
    ensures r.board == p.board && r.win == p.win && r.score == p.score && r.flips == p.flips
  {
    if p.win then p else p.(cursor := SelectNext(p.board, p.cursor, p.win))
  }

  /**
   * move_to_foundation from the cursor's source: the board afterwards,
   * five points when a card moved, and the win once that card completed
   * the four Kings.
   */
  function FoundationMove(p: Play): (r: Play)
    requires Inv(p.board)
    ensures Inv(r.board) && r.cursor == p.cursor && r.flips == p.flips
    ensures r.score == p.score + if FoundationSlot(p.board, p.cursor.source) < FoundationSlots then 5 else 0
  {
    var moved := FoundationSlot(p.board, p.cursor.source) < FoundationSlots;
    MoveToFoundationKeepsInv(p.board, p.cursor.source);
    var b := MoveToFoundation(p.board, p.cursor.source);
    p.(board := b, score := if moved then p.score + 5 else p.score, win := p.win || (moved && AllKings(b.foundation)))
  }

  /**
   * The select button.  In source mode a valid selection becomes the
   * source and the cursor goes to the foundations (or on to a valid
   * destination); an invalid one only becomes `source`.  In destination
   * mode the move is made, to the foundations or to the selected tableau
   * pile, and the cursor returns to source mode.
   */
  function Select(p: Play): (r: Play)
    requires Inv(p.board) && CursorOk(p.cursor)
    ensures p.win ==> r == p
    ensures Inv(r.board) && r.flips == p.flips
  {
    var b, c := p.board, p.cursor;
    if p.win then p
    else if c.mode == SelectSource then
      if SourceValid(b, c.selection) then
        p.(cursor := SelectValid(b, Cursor(SelectDest, FoundationsPile, c.selection), p.win))
      else
        p.(cursor := CheckSource(c))
    else if c.selection == FoundationsPile then
      var m := FoundationMove(p);
      m.(cursor := SelectTalon(m.board, c.(mode := SelectSource), m.win))
    else
      MoveToTableauKeepsInv(b, c.source, c.selection);
      var moved := MoveToTableau(b, c.source, c.selection);
      p.(board := moved, cursor := SelectValid(moved, c.(mode := SelectSource), p.win))
  }

  /**
   * The down button: in source mode a card is dealt from the stock (which
   * may re-deal and count a flip); in destination mode the move is
   * abandoned.  Either way the cursor goes to the talon.
   */
  function Down(p: Play, drawThree: bool, limit: int): (r: Play)
    requires Inv(p.board) && CursorOk(p.cursor) && (!drawThree ==> p.board.talonShowing == 0)
    ensures p.win ==> r == p
    ensures Inv(r.board) && r.win == p.win && r.score == p.score
  {
    if p.win then p else ToTalon(Drawn(p, drawThree, limit))
  }

  /** The deal of down: from the stock in source mode, nothing in destination mode. */
  function Drawn(p: Play, drawThree: bool, limit: int): (r: Play)
    requires Inv(p.board) && (!drawThree ==> p.board.talonShowing == 0)
    ensures Inv(r.board) && (!drawThree ==> r.board.talonShowing == 0) && r.cursor == p.cursor
  {
    DrawKeepsInv(p.board, drawThree, limit, p.flips);
    if p.cursor.mode == SelectSource then
      var d := DrawFromStock(p.board, drawThree, limit, p.flips);
      p.(board := d.0, flips := d.1)
    else p
  }

  /** The cursor to the talon, through select_talon. */
  function ToTalon(p: Play): Play
    requires Inv(p.board)
  {
    p.(cursor := SelectTalon(p.board, p.cursor, p.win))
  }

  /**
   * The long down button: the sweep to the foundations, five points per
   * card it moved, the win if it completed the four Kings; then source
   * mode on a valid pile.
   */
  function LongDown(p: Play): (r: Play)
    requires Inv(p.board) && CursorOk(p.cursor)
    ensures p.win ==> r == p
    ensures Inv(r.board) && r.flips == p.flips
  {
    if p.win then p else Settle(SweepPlay(p))
  }

  /** The sweep of long down, before the cursor moves. */
  function SweepPlay(p: Play): (r: Play)
    requires Inv(p.board) && CursorOk(p.cursor)
    ensures Inv(r.board) && CursorOk(r.cursor)
  {
    var s := Sweep(p.board, p.cursor.source);
    var moved := TableauSize(p.board) - TableauSize(s.board);
    p.(board := s.board, score := p.score + 5 * moved, win := moved > 0 && AllKings(s.board.foundation),
       cursor := p.cursor.(source := s.source))
  }

  /** The end of a move or a sweep: source mode on a valid pile. */
  function Settle(p: Play): Play
    requires Inv(p.board) && CursorOk(p.cursor)
  {
    p.(cursor := SelectValid(p.board, p.cursor.(mode := SelectSource), p.win))
  }

  /** select in source mode, one branch at a time. */
  lemma SelectOnSource(p: Play)
    requires Inv(p.board) && CursorOk(p.cursor) && !p.win && p.cursor.mode == SelectSource
    ensures Select(p) == p.(cursor :=
      if SourceValid(p.board, p.cursor.selection) then SelectValid(p.board, Cursor(SelectDest, FoundationsPile, p.cursor.selection), p.win)
      else CheckSource(p.cursor))
  {
  }

  lemma SelectOnFoundations(p: Play)
    requires Inv(p.board) && CursorOk(p.cursor) && !p.win && p.cursor.mode == SelectDest && p.cursor.selection == FoundationsPile
    ensures var m := FoundationMove(p);
      Select(p) == m.(cursor := SelectTalon(m.board, p.cursor.(mode := SelectSource), m.win))
  {
  }

  lemma SelectOnTableau(p: Play)
    requires Inv(p.board) && CursorOk(p.cursor) && !p.win && p.cursor.mode == SelectDest && p.cursor.selection != FoundationsPile
    ensures MoveToTableau.requires(p.board, p.cursor.source, p.cursor.selection)
    ensures Inv(MoveToTableau(p.board, p.cursor.source, p.cursor.selection))
    ensures var moved := MoveToTableau(p.board, p.cursor.source, p.cursor.selection);
      Select(p) == p.(board := moved, cursor := SelectValid(moved, p.cursor.(mode := SelectSource), p.win))
  {
    MoveToTableauKeepsInv(p.board, p.cursor.source, p.cursor.selection);
  }

  // ---------------------------------------------------------------------
  // What the commands keep and guarantee

  lemma UpKeepsPlay(p: Play, drawThree: bool)
    requires PlayOk(p, drawThree)
    ensures PlayOk(Up(p), drawThree)
  {
    if !p.win {
      SelectNextSpec(p.board, p.cursor, p.win);
    }
  }

  lemma SelectKeepsPlay(p: Play, drawThree: bool)
    requires PlayOk(p, drawThree)
    ensures PlayOk(Select(p), drawThree)
  {
    var b, c := p.board, p.cursor;
    if !p.win {
      if c.mode == SelectSource {
        if SourceValid(b, c.selection) {
          SelectValidSpec(b, Cursor(SelectDest, FoundationsPile, c.selection), p.win);
        }
      } else if c.selection == FoundationsPile {
        var m := FoundationMove(p);
        MoveToFoundationCount(b, c.source);
        SelectTalonSpec(m.board, c.(mode := SelectSource), m.win);
      } else {
        MoveToTableauKeepsInv(b, c.source, c.selection);
        MoveToTableauCount(b, c.source, c.selection);
        SelectValidSpec(MoveToTableau(b, c.source, c.selection), c.(mode := SelectSource), p.win);
      }
    }
  }

  lemma DownKeepsPlay(p: Play, drawThree: bool, limit: int)
    requires PlayOk(p, drawThree)
    ensures PlayOk(Down(p, drawThree, limit), drawThree)
  {
    if !p.win {
      DrawKeepsInv(p.board, drawThree, limit, p.flips);
      var d := if p.cursor.mode == SelectSource then DrawFromStock(p.board, drawThree, limit, p.flips) else (p.board, p.flips);
      SelectTalonSpec(d.0, p.cursor, p.win);
    }
  }

  /** Sending the cursor to the talon keeps a play legal. */
  lemma ToTalonKeepsPlay(p: Play, drawThree: bool)
    requires PlayOk(p, drawThree)
    ensures PlayOk(ToTalon(p), drawThree)
  {
    SelectTalonSpec(p.board, p.cursor, p.win);
  }

  lemma LongDownKeepsPlay(p: Play, drawThree: bool)
    requires PlayOk(p, drawThree)
    ensures PlayOk(LongDown(p), drawThree)
  {
    if !p.win {
      var s := Sweep(p.board, p.cursor.source);
      var win := TableauSize(p.board) - TableauSize(s.board) > 0 && AllKings(s.board.foundation);
      SelectValidSpec(s.board, Cursor(SelectSource, p.cursor.selection, s.source), win);
    }
  }

  /**
   * Selecting in source mode never changes the board.  An invalid pile
   * only becomes `source`; from a valid one the cursor either rests on a
   * valid destination for that pile or falls back to source mode.
   */
  lemma SelectFromSource(p: Play)
    requires Inv(p.board) && CursorOk(p.cursor) && !p.win && p.cursor.mode == SelectSource
    ensures var r := Select(p);
      r.board == p.board && r.score == p.score && r.win == p.win &&
      (!SourceValid(p.board, p.cursor.selection) ==> r.cursor == CheckSource(p.cursor)) &&
      (r.cursor.mode == SelectDest ==>
        SourceValid(p.board, p.cursor.selection) && r.cursor.source == p.cursor.selection &&
        DestValid(p.board, r.cursor.source, r.cursor.selection))
  {
    if SourceValid(p.board, p.cursor.selection) {
      SelectValidSpec(p.board, Cursor(SelectDest, FoundationsPile, p.cursor.selection), p.win);
    }
  }

  /**
   * Selecting in destination mode completes the move: the cursor is back
   * in source mode; a foundation move takes one card off the board and
   * scores five exactly when a card moved, a tableau move keeps every
   * card and the score.
   */
  lemma SelectFromDestination(p: Play)
    requires Inv(p.board) && CursorOk(p.cursor) && !p.win && p.cursor.mode == SelectDest
    ensures var r := Select(p);
      r.cursor.mode == SelectSource &&
      (p.cursor.selection == FoundationsPile ==>
        r.board == MoveToFoundation(p.board, p.cursor.source) &&
        (r.score == p.score + 5 <==> FoundationSlot(p.board, p.cursor.source) < FoundationSlots) &&
        (FoundationSlot(p.board, p.cursor.source) < FoundationSlots ==>
          BoardCards(r.board) + multiset{SourceCard(p.board, p.cursor.source)} == BoardCards(p.board)) &&
        (FoundationSlot(p.board, p.cursor.source) == FoundationSlots ==> r.board == p.board)) &&
      (p.cursor.selection != FoundationsPile ==>
        BoardCards(r.board) == BoardCards(p.board) && r.score == p.score && !r.win)
  {
    var b, c := p.board, p.cursor;
    if c.selection == FoundationsPile {
      var m := FoundationMove(p);
      SelectTalonSpec(m.board, c.(mode := SelectSource), m.win);
      if FoundationSlot(b, c.source) < FoundationSlots {
        MoveToFoundationEffect(b, c.source);
      }
    } else {
      MoveToTableauKeepsInv(b, c.source, c.selection);
      MoveToTableauConserves(b, c.source, c.selection);
      SelectValidSpec(MoveToTableau(b, c.source, c.selection), c.(mode := SelectSource), p.win);
    }
  }

  /**
   * The down button always ends in source mode; it changes nothing on the
   * board but the talon window, and only in source mode; a limited
   * flip setting caps the re-deals.
   */
  lemma DownSpec(p: Play, drawThree: bool, limit: int)
    requires Inv(p.board) && CursorOk(p.cursor) && !p.win && (!drawThree ==> p.board.talonShowing == 0)
    ensures var r := Down(p, drawThree, limit);
      r.cursor.mode == SelectSource &&
      r.board.stock == p.board.stock && r.board.piles == p.board.piles && r.board.hidden == p.board.hidden &&
      r.board.foundation == p.board.foundation &&
      (p.cursor.mode == SelectDest ==> r.board == p.board && r.flips == p.flips) &&
      (1 <= limit <= 3 && p.flips <= FlipCap(limit) ==> r.flips <= FlipCap(limit))
  {
    DrawKeepsInv(p.board, drawThree, limit, p.flips);
    if 1 <= limit <= 3 && p.flips <= FlipCap(limit) {
      FlipLimitEnforced(p.board, drawThree, limit, p.flips);
    }
    var d := if p.cursor.mode == SelectSource then DrawFromStock(p.board, drawThree, limit, p.flips) else (p.board, p.flips);
    SelectTalonSpec(d.0, p.cursor, p.win);
  }

  /**
   * After the long down button no tableau top can go to a foundation, the
   * stock is as it was, five points were scored per card moved, and the
   * cursor is in source mode.
   */
  lemma LongDownSpec(p: Play)
    requires Inv(p.board) && CursorOk(p.cursor) && !p.win
    ensures var r := LongDown(p);
      (forall i :: 0 <= i < TableauPiles ==> FoundationSlot(r.board, i) == FoundationSlots) &&
      r.board.stock == p.board.stock && BoardCards(r.board) <= BoardCards(p.board) &&
      r.score - p.score == 5 * (TableauSize(p.board) - TableauSize(r.board)) &&
      r.cursor.mode == SelectSource
  {
    var s := Sweep(p.board, p.cursor.source);
    var win := TableauSize(p.board) - TableauSize(s.board) > 0 && AllKings(s.board.foundation);
    SelectValidSpec(s.board, Cursor(SelectSource, p.cursor.selection, s.source), win);
  }

  // ---------------------------------------------------------------------
  // The draw setting (settings menu)

  /** Switching between draw-one and draw-three on the whole play: only the window moves. */
  function ToggleDraw(p: Play, wasDrawThree: bool): (r: Play)
    ensures r.cursor == p.cursor && r.win == p.win && r.score == p.score && r.flips == p.flips
    ensures r.board == ToggleDrawBoard(p.board, wasDrawThree)
  {
    p.(board := ToggleDrawBoard(p.board, wasDrawThree))
  }

  /** The switch keeps a play legal under the new mode: in particular the window is closed after switching to draw-one. */
  lemma ToggleDrawKeepsPlay(p: Play, wasDrawThree: bool)
    requires PlayOk(p, wasDrawThree)
    ensures PlayOk(ToggleDraw(p, wasDrawThree), !wasDrawThree)
  {
    ToggleDrawKeepsInv(p.board, wasDrawThree);
  }

  // ---------------------------------------------------------------------
  // The deal (shuffle_and_deal)

  /** The deal of a shuffled deck is a legal board of all 52 cards. */
  lemma DealtDeck(deck: seq<int>, drawThree: bool)
    requires multiset(deck) == multiset(Rng.Ordered(DeckSize))
    ensures |deck| == DeckSize
    ensures var b := Rules.Dealt(deck, drawThree);
      Inv(b) && WithinDeck(b) && BoardCards(b) == multiset(Rng.Ordered(DeckSize))
  {
    Rng.PermutationHoldsEachOnce(deck, DeckSize);
    DealtInv(deck, drawThree);
  }

  /** The deal on the whole play: the dealt board, 52 points charged, no win and no re-deals yet. */
  function Dealt(p: Play, deck: seq<int>, drawThree: bool): (r: Play)
    requires |deck| == DeckSize
    ensures r.cursor == p.cursor
  {
    Play(Rules.Dealt(deck, drawThree), p.cursor, false, p.score - DeckSize, 0)
  }

  /** shuffle_and_deal once the deck is shuffled: the deal, then select_talon. */
  function Redeal(p: Play, deck: seq<int>, drawThree: bool): (r: Play)
    requires multiset(deck) == multiset(Rng.Ordered(DeckSize))
  {
    DealtDeck(deck, drawThree);
    ToTalon(Dealt(p, deck, drawThree))
  }

  /**
   * Dealing a shuffled deck gives a legal play holding every card once:
   * 24 in the stock and 28 on the tableau, the foundations empty, the
   * score 52 lower, no re-deals, and the cursor in source mode on the
   * talon, since the stock is not empty.
   */
  lemma RedealSpec(p: Play, deck: seq<int>, drawThree: bool)
    requires CursorOk(p.cursor) && multiset(deck) == multiset(Rng.Ordered(DeckSize))
    ensures var r := Redeal(p, deck, drawThree);
      PlayOk(r, drawThree) && BoardCards(r.board) == multiset(Rng.Ordered(DeckSize)) &&
      |r.board.stock| == StockCapacity && TableauSize(r.board) == DeckSize - StockCapacity &&
      r.board.foundation == [NoCard, NoCard, NoCard, NoCard] &&
      !r.win && r.score == p.score - DeckSize && r.flips == 0 &&
      r.cursor == p.cursor.(mode := SelectSource, selection := TalonPile)
  {
    Rng.PermutationHoldsEachOnce(deck, DeckSize);
    DealtInv(deck, drawThree);
    SelectTalonSpec(Rules.Dealt(deck, drawThree), p.cursor, false);
  }
}
