/**
 * The Klondike engine as the program runs it: one object whose fields are
 * the engine's globals, updated in place by the moves, the cursor
 * handlers, the deal and the saved-game loader.
 *
 * `Abs()` reads the arrays as a `Rules.Board` and `Cur()` the cursor as a
 * `Selection.Cursor`; every method that changes them is proved to leave
 * exactly the board or cursor that the pure specification computes from
 * the old one, and the handlers keep `Valid()`.
 */
module Klondike {
  import opened Cards
  import opened Rules
  import opened Selection
  import Rng
  import opened Codec
  import Commands

  /** The board of the zeroed globals: nothing dealt, every foundation holding card 0. */
  const ZeroBoard: Board := Board([], 0, 0, [0, 0, 0, 0], [[], [], [], [], [], [], []], [0, 0, 0, 0, 0, 0, 0])

  lemma EmptyBoardOk()
    ensures Inv(ZeroBoard) && WithinDeck(ZeroBoard)
  {
    var b := ZeroBoard;
    forall p | 0 <= p < TableauPiles ensures PileOk(b.piles[p], b.hidden[p]) {
      assert b.piles[p] == [] && b.hidden[p] == 0;
    }
    EmptyFlatten(b.piles, TableauPiles);
    assert b.piles[..TableauPiles] == b.piles;
  }

  lemma {:induction false} EmptyFlatten(piles: seq<seq<int>>, n: int)
    requires 0 <= n <= |piles| && forall p :: 0 <= p < |piles| ==> piles[p] == []
    ensures Flatten(piles[..n]) == []
  {
    if n > 0 {
      EmptyFlatten(piles, n - 1);
      assert piles[..n][..n - 1] == piles[..n - 1];
    }
  }

  /** The bytes of `state` from `lo` up to `hi` that save_state writes hold what it writes there. */
  ghost predicate Stored(state: array<int>, s: Saved, lo: int, hi: int)
    requires Savable(s)
    reads state
  {
    state.Length == StateSize && forall k :: lo <= k < hi && Written(s, k) ==> state[k] == ByteAt(s, k)
  }

  class Game {
    const stock: array<int>          // stock[24]
    const foundation: array<int>     // foundation[4]
    const tableau: array2<int>       // tableau[7][19]
    const hiddenCount: array<int>    // hidden_count[7]
    const tableauCount: array<int>   // tableau_count[7]
    const deck: array<int>           // deck[52]
    var stockCount: int
    var talon: int
    var talonShowing: int
    var flips: int
    var mode: int
    var selection: int
    var source: int
    var win: bool
    var score: int
    var seed: int
    var drawSetting: int
    var flipLimitSetting: int
    var scoreSetting: int
    /** Short vibration pulses given so far (the win signal). */
    ghost var pulses: nat

    /** The tableau arrays have the engine's sizes and every count stays inside its row. */
    ghost predicate TableauShape()
      reads tableauCount
    {
      tableau.Length0 == TableauPiles && tableau.Length1 == PileCapacity && tableauCount.Length == TableauPiles &&
      forall p :: 0 <= p < TableauPiles ==> 0 <= tableauCount[p] <= PileCapacity
    }

    /** All arrays have the engine's sizes and are distinct, and the counts stay inside them. */
    ghost predicate Shape()
      reads this`stockCount, tableauCount
    {
      TableauShape() &&
      stock.Length == StockCapacity && foundation.Length == FoundationSlots &&
      hiddenCount.Length == TableauPiles && deck.Length == DeckSize &&
      stock != foundation && stock != hiddenCount && stock != tableauCount && stock != deck &&
      foundation != hiddenCount && foundation != tableauCount && foundation != deck &&
      hiddenCount != tableauCount && hiddenCount != deck && tableauCount != deck &&
      0 <= stockCount <= StockCapacity
    }

    /** The tableau piles: row `p` up to `tableau_count[p]`. */
    ghost function Rows(): (rows: seq<seq<int>>)
      requires TableauShape()
      reads tableau, tableauCount
      ensures |rows| == TableauPiles
      ensures forall p :: 0 <= p < TableauPiles ==> |rows[p]| == tableauCount[p]
    {
      var counts := tableauCount[..];
      var t := tableau;
      seq(TableauPiles, p requires 0 <= p < TableauPiles reads t =>
        var n := counts[p];
        seq(n, j requires 0 <= j < n reads t => t[p, j]))
    }

    /** The board the arrays hold. */
    ghost function Abs(): (b: Board)
      requires Shape()
      reads this`stockCount, this`talon, this`talonShowing, stock, foundation, tableau, hiddenCount, tableauCount
      ensures Shaped(b)
    {
      Board(stock[..stockCount], talon, talonShowing, foundation[..], Rows(), hiddenCount[..])
    }

    ghost function Cur(): Cursor
      reads this`mode, this`selection, this`source
    {
      Cursor(mode, selection, source)
    }

    /** What save_state stores. */
    ghost function Snapshot(): Saved
      requires Shape()
      reads this, stock, foundation, tableau, hiddenCount, tableauCount
    {
      Saved(Abs(), win, drawSetting, flipLimitSetting, scoreSetting, flips, score)
    }

    /** What the button commands read and change. */
    ghost function Now(): Commands.Play
      requires Shape()
      reads this`stockCount, this`talon, this`talonShowing, stock, foundation, tableau, hiddenCount, tableauCount
      reads this`mode, this`selection, this`source, this`win, this`score, this`flips
    {
      Commands.Play(Abs(), Cur(), win, score, flips)
    }

    /**
     * The state between two commands: a legal board holding at most one
     * deck, the cursor in range, a closed window in draw-one mode, the
     * settings bytes.
     */
    ghost predicate Valid()
      reads this, stock, foundation, tableau, hiddenCount, tableauCount
    {
      Shape() && Commands.PlayOk(Now(), drawSetting != 0) &&
      IsByte(drawSetting) && IsByte(flipLimitSetting) && IsByte(scoreSetting)
    }

    /** The globals as the program starts: all zero, no cards anywhere. */
    constructor ()
      ensures Valid() && fresh(stock) && fresh(foundation) && fresh(tableau) && fresh(hiddenCount)
      ensures fresh(tableauCount) && fresh(deck)
      ensures Abs() == ZeroBoard
      ensures Cur() == Cursor(SelectSource, 0, 0) && !win && score == 0 && flips == 0
    {
      stock := new int[StockCapacity](_ => 0);
      foundation := new int[FoundationSlots](_ => 0);
      tableau := new int[TableauPiles, PileCapacity]((_, _) => 0);
      hiddenCount := new int[TableauPiles](_ => 0);
      tableauCount := new int[TableauPiles](_ => 0);
      deck := new int[DeckSize](_ => 0);
      stockCount, talon, talonShowing, flips := 0, 0, 0, 0;
      mode, selection, source, win, score, seed := 0, 0, 0, false, 0, 0;
      drawSetting, flipLimitSetting, scoreSetting := 0, 0, 0;
      pulses := 0;
      new;
      ZeroState();
    }

    /** With every global zero the board is the empty board, and the state is valid. */
    lemma ZeroState()
      requires Shape() && stockCount == 0 && talon == 0 && talonShowing == 0
      requires foundation[..] == [0, 0, 0, 0] && hiddenCount[..] == [0, 0, 0, 0, 0, 0, 0]
      requires tableauCount[..] == [0, 0, 0, 0, 0, 0, 0]
      requires mode == 0 && selection == 0 && source == 0 && !win && score == 0 && flips == 0
      requires drawSetting == 0 && flipLimitSetting == 0 && scoreSetting == 0
      ensures Abs() == ZeroBoard && Valid()
    {
      assert Rows() == [[], [], [], [], [], [], []];
      EmptyBoardOk();
      assert Now() == Commands.Play(ZeroBoard, Cursor(SelectSource, 0, 0), false, 0, 0);
      ValidFromPlay();
    }

    // -------------------------------------------------------------------
    // Reading the board

    /** get_source_card. */
    method GetSourceCard() returns (c: int)
      requires Shape() && Inv(Abs())
      ensures c == SourceCard(Abs(), source)
    {
      if source < 0 || source >= FoundationsPile {
        return NoCard;
      }
      if source == TalonPile {
        if stockCount < talonShowing + 1 {
          return NoCard;
        }
        return stock[talon + talonShowing];
      }
      if tableauCount[source] == 0 {
        return NoCard;
      }
      c := tableau[source, tableauCount[source] - 1];
      assert c == Rows()[source][tableauCount[source] - 1];
    }

    /** tableau_rules_met: may a card of this rank and suit go on pile `selection`? */
    method TableauRulesMet(srcRank: int, srcSuit: int, kingAllowedOnEmpty: bool) returns (ok: bool)
      requires Shape() && Inv(Abs()) && 0 <= selection < TableauPiles && 0 <= srcSuit < 4
      ensures ok == RulesMet(Abs(), selection, srcRank, srcSuit, kingAllowedOnEmpty)
    {
      var n := tableauCount[selection];
      if n > 0 {
        var destCard := tableau[selection, n - 1];
        assert destCard == Abs().piles[selection][n - 1];
        var destRank := destCard / 4;
        if srcRank == destRank - 1 {
          var destSuit := destCard % 4;
          if srcSuit / 2 != destSuit / 2 {
            return true;
          }
        }
      } else {
        if srcRank == King && kingAllowedOnEmpty {
          return true;
        }
      }
      return false;
    }

    /** multiple_cards_are_showing. */
    method MultipleCardsAreShowing(i: int) returns (ok: bool)
      requires Shape() && 0 <= i < TableauPiles
      ensures ok == MultipleShowing(Abs(), i)
    {
      ok := tableauCount[i] > 0 && tableauCount[i] != hiddenCount[i] + 1;
    }

    /** can_move_single_card_to_tableau: the source card onto pile `selection`. */
    method CanMoveSingleCardToTableau() returns (ok: bool)
      requires Shape() && Inv(Abs()) && 0 <= selection < TableauPiles
      ensures ok == CanMoveSingle(Abs(), source, selection)
    {
      if selection == source {
        return false;
      }
      var srcCard := GetSourceCard();
      if srcCard < 0 {
        return false;
      }
      ok := TableauRulesMet(srcCard / 4, srcCard % 4, true);
    }

    /** can_move_pile_to_tableau: the face-up run of tableau pile `source` onto pile `selection`. */
    method CanMovePileToTableau() returns (ok: bool)
      requires Shape() && Inv(Abs()) && 0 <= source && 0 <= selection < TableauPiles
      ensures ok == CanMovePile(Abs(), source, selection)
    {
      if selection == source || source > TableauPiles - 1 {
        return false;
      }
      var showing := MultipleCardsAreShowing(source);
      if !showing {
        return false;
      }
      assert PileOk(Abs().piles[source], hiddenCount[source]);
      var srcCard := tableau[source, hiddenCount[source]];
      assert srcCard == Abs().piles[source][hiddenCount[source]];
      ok := TableauRulesMet(srcCard / 4, srcCard % 4, hiddenCount[source] > 0);
    }

    /** can_move_to_tableau. */
    method CanMoveToTableau(ghost b: Board) returns (ok: bool)
      requires Shape() && Abs() == b && Inv(b) && 0 <= source && 0 <= selection < TableauPiles
      ensures ok == Rules.CanMoveToTableau(b, source, selection)
    {
      ok := CanMoveSingleCardToTableau();
      if !ok {
        ok := CanMovePileToTableau();
      }
    }

    /**
     * can_move_to_foundations: the scan over the four foundations for one
     * that takes the source card, an Ace on an empty one or the next card
     * of the suit; 4 when there is none or no source card.
     */
    method CanMoveToFoundations(ghost b: Board) returns (i: int)
      requires Shape() && Abs() == b && Inv(b)
      ensures i == FoundationSlot(b, source)
    {
      var srcCard := GetSourceCard();
      if srcCard < 0 {
        return FoundationSlots;
      }
      var srcRank, srcSuit := srcCard / 4, srcCard % 4;
      ghost var f := foundation[..];
      i := 0;
      while i < FoundationSlots
        invariant 0 <= i <= FoundationSlots
        invariant FirstAccepting(f, srcCard, i) == FirstAccepting(f, srcCard, 0)
      {
        var destCard := foundation[i];
        if destCard == NoCard {
          if srcRank == Ace {
            break;
          }
        } else if srcSuit == destCard % 4 && srcRank == destCard / 4 + 1 {
          break;
        }
        i := i + 1;
      }
    }

    // -------------------------------------------------------------------
    // Changing the board

    /** `tableau[p][tableau_count[p]++] = x`: one card on top of pile `p`. */
    method PushCard(p: int, x: int)
      requires TableauShape() && 0 <= p < TableauPiles && tableauCount[p] < PileCapacity
      modifies tableau, tableauCount
      ensures TableauShape()
      ensures Rows() == old(Rows())[p := old(Rows())[p] + [x]]
      ensures tableauCount[..] == old(tableauCount[..])[p := old(tableauCount[p]) + 1]
    {
      ghost var before := Rows();
      tableau[p, tableauCount[p]] := x;
      tableauCount[p] := tableauCount[p] + 1;
      assert Rows()[p] == before[p] + [x];
      forall q | 0 <= q < TableauPiles && q != p ensures Rows()[q] == before[q] {
      }
    }

    /** tableau_flip_top_card: turn up the top card of `source` once only face-down cards are left. */
    method TableauFlipTopCard()
      requires Shape() && 0 <= source < TableauPiles
      modifies hiddenCount
      ensures hiddenCount[..] == old(hiddenCount[..])[source := Flip(old(hiddenCount[source]), tableauCount[source])]
    {
      if hiddenCount[source] > 0 && tableauCount[source] == hiddenCount[source] {
        hiddenCount[source] := hiddenCount[source] - 1;
      }
    }

    /** The loop of remove_source_card: `stock[k]` is dropped and the cards above it move down one place. */
    method ShiftStock(k: int)
      requires Shape() && 0 <= k < stockCount
      modifies stock, this`stockCount
      ensures Shape()
      ensures stock[..stockCount] == old(stock[..stockCount][..k] + stock[..stockCount][k + 1..])
    {
      ghost var s := stock[..];
      stockCount := stockCount - 1;
      var i := k;
      while i < stockCount
        modifies stock
        invariant k <= i <= stockCount < StockCapacity
        invariant forall j :: 0 <= j < k ==> stock[j] == s[j]
        invariant forall j :: k <= j < i ==> stock[j] == s[j + 1]
        invariant forall j :: i <= j < StockCapacity ==> stock[j] == s[j]
      {
        stock[i] := stock[i + 1];
        i := i + 1;
      }
      assert stock[..stockCount] == s[..k] + s[k + 1..stockCount + 1];
    }

    /** remove_source_card: the talon card is cut out of the stock by shifting the rest down. */
    method RemoveSourceCard()
      requires Shape() && Inv(Abs()) && SourceCard(Abs(), source) != NoCard
      modifies stock, hiddenCount, tableauCount, this`stockCount, this`talon, this`talonShowing
      ensures Shape() && Abs() == RemoveCard(old(Abs()), source)
    {
      if source == TalonPile {
        RemoveTalonCard();
      } else {
        RemoveTableauCard();
      }
    }

    /** The talon branch of remove_source_card: the card is cut out of the stock and the window closes up. */
    method RemoveTalonCard()
      requires Shape() && Inv(Abs()) && source == TalonPile && Abs().talonShowing < |Abs().stock|
      modifies stock, this`stockCount, this`talon, this`talonShowing
      ensures Shape() && Abs() == RemoveCard(old(Abs()), source)
    {
      ghost var b := Abs();
      ShiftStock(talon + talonShowing);
      if talon > 0 {
        if talonShowing > 0 {
          talonShowing := talonShowing - 1;
        } else {
          talon := talon - 1;
        }
      }
      ghost var r := RemoveCard(b, TalonPile);
      assert stock[..stockCount] == r.stock && talon == r.talon && talonShowing == r.talonShowing;
      assert Rows() == b.piles && foundation[..] == b.foundation && hiddenCount[..] == b.hidden;
    }

    /** The tableau branch of remove_source_card: the count drops by one and a newly uncovered card turns face up. */
    method RemoveTableauCard()
      requires Shape() && Inv(Abs()) && 0 <= source < TableauPiles && tableauCount[source] > 0
      modifies hiddenCount, tableauCount
      ensures Shape() && Abs() == RemoveCard(old(Abs()), source)
    {
      CutPile(tableauCount[source] - 1);
    }

    /** Pile `source` keeps its bottom `n` cards and, left with only face-down cards, turns its top one up. */
    method CutPile(n: int)
      requires Shape() && 0 <= source < TableauPiles && 0 <= n <= tableauCount[source]
      modifies hiddenCount, tableauCount
      ensures Shape() && Rows() == old(Rows())[source := old(Rows())[source][..n]]
      ensures hiddenCount[..] == old(hiddenCount[..])[source := Flip(old(hiddenCount[source]), n)]
    {
      ghost var rows := Rows();
      tableauCount[source] := n;
      TableauFlipTopCard();
      assert Rows()[source] == rows[source][..n];
      forall q | 0 <= q < TableauPiles && q != source ensures Rows()[q] == rows[q] {
      }
      assert Rows() == rows[source := rows[source][..n]];
    }

    /**
     * move_to_tableau: the single source card onto pile `selection` when
     * that is legal, else the face-up run of pile `source` card by card,
     * after which `source` keeps its face-down cards and turns one up.
     */
    method MoveToTableau()
      requires Shape() && Inv(Abs()) && 0 <= source && 0 <= selection < TableauPiles
      modifies stock, tableau, hiddenCount, tableauCount, this`stockCount, this`talon, this`talonShowing
      ensures Shape() && Abs() == Rules.MoveToTableau(old(Abs()), source, selection)
    {
      var single := CanMoveSingleCardToTableau();
      if single {
        MoveCard();
      } else {
        var pile := CanMovePileToTableau();
        if pile {
          MovePile();
        }
      }
    }

    /** The pile branch of move_to_tableau, once the run is known to fit on `selection`. */
    method MovePile()
      requires Shape() && Inv(Abs()) && 0 <= source < TableauPiles && 0 <= selection < TableauPiles
      requires CanMovePile(Abs(), source, selection)
      modifies tableau, hiddenCount, tableauCount
      ensures Shape() && Abs() == MoveRun(old(Abs()), source, selection)
    {
      ghost var b := Abs();
      assert PileOk(b.piles[source], b.hidden[source]);
      ghost var run := b.piles[source][b.hidden[source]..];
      assert PileOk(b.piles[selection], b.hidden[selection]);
      AppendKeepsInv(b, selection, run);
      PileWithinCapacity(Append(b, selection, run).piles[selection], b.hidden[selection]);
      MoveRunCards();
    }

    /** The single-card branch of move_to_tableau: the card is put on `selection` first, then taken off `source`. */
    method MoveCard()
      requires Shape() && Inv(Abs()) && 0 <= selection < TableauPiles && CanMoveSingle(Abs(), source, selection)
      modifies stock, tableau, hiddenCount, tableauCount, this`stockCount, this`talon, this`talonShowing
      ensures Shape() && Abs() == Append(RemoveCard(old(Abs()), source), selection, [SourceCard(old(Abs()), source)])
    {
      ghost var b := Abs();
      var c := GetSourceCard();
      PushSourceCard(c);
      RemoveAfterAppend(b, source, selection, [c]);
      RemoveSourceCard();
    }

    /** The first half of the single-card move: the source card goes on top of `selection`. */
    method PushSourceCard(c: int)
      requires Shape() && Inv(Abs()) && 0 <= selection < TableauPiles && CanMoveSingle(Abs(), source, selection)
      requires c == SourceCard(Abs(), source)
      modifies tableau, tableauCount
      ensures Shape() && Abs() == Append(old(Abs()), selection, [c]) && Inv(Abs())
    {
      ghost var b := Abs();
      assert PileOk(b.piles[selection], b.hidden[selection]);
      AppendKeepsInv(b, selection, [c]);
      PileWithinCapacity(Append(b, selection, [c]).piles[selection], b.hidden[selection]);
      PushCard(selection, c);
      assert Rows() == Append(b, selection, [c]).piles;
    }

    /** The pile branch of move_to_tableau. */
    method MoveRunCards()
      requires Shape() && 0 <= source < TableauPiles && 0 <= selection < TableauPiles && source != selection
      requires 0 <= hiddenCount[source] <= tableauCount[source]
      requires tableauCount[selection] + tableauCount[source] - hiddenCount[source] <= PileCapacity
      modifies tableau, hiddenCount, tableauCount
      ensures Shape() && Abs() == MoveRun(old(Abs()), source, selection)
    {
      ghost var b := Abs();
      var h := hiddenCount[source];
      CopyRun(source, selection, h);
      ghost var rows := Rows();
      assert rows == Append(b, selection, b.piles[source][h..]).piles;
      CutPile(h);
      assert Rows() == MoveRun(b, source, selection).piles;
      assert hiddenCount[..] == MoveRun(b, source, selection).hidden;
    }

    /** The append loop of move_to_tableau: cards `from ..` of pile `src`, in order, onto pile `dest`. */
    method CopyRun(src: int, dest: int, from: int)
      requires TableauShape() && 0 <= src < TableauPiles && 0 <= dest < TableauPiles && src != dest
      requires 0 <= from <= tableauCount[src] && tableauCount[dest] + tableauCount[src] - from <= PileCapacity
      modifies tableau, tableauCount
      ensures TableauShape()
      ensures Rows() == old(Rows())[dest := old(Rows())[dest] + old(Rows())[src][from..]]
    {
      ghost var r := Rows();
      ghost var d := r[dest];
      var i := from;
      assert r[src][from..i] == [] && d + [] == d;
      assert r[dest := d] == r;
      while i < tableauCount[src]
        invariant TableauShape() && from <= i <= tableauCount[src] == |r[src]|
        invariant tableauCount[dest] == |d| + i - from
        invariant Rows() == r[dest := d + r[src][from..i]]
      {
        assert tableau[src, i] == r[src][i];
        assert d + r[src][from..i + 1] == d + r[src][from..i] + [r[src][i]];
        PushCard(dest, tableau[src, i]);
        i := i + 1;
      }
      assert r[src][from..i] == r[src][from..];
    }

    /** The win check of move_to_foundation: no foundation top below the first King. */
    method AllFoundationsKings() returns (all: bool)
      requires foundation.Length == FoundationSlots
      ensures all == AllKings(foundation[..])
    {
      var i := 0;
      while i < FoundationSlots
        invariant 0 <= i <= FoundationSlots
        invariant forall j :: 0 <= j < i ==> foundation[j] >= FirstKing
      {
        if foundation[i] < FirstKing {
          break;
        }
        i := i + 1;
      }
      all := i > FoundationSlots - 1;
    }

    /**
     * move_to_foundation: the source card goes to the slot
     * can_move_to_foundations picks, with five points; when all four
     * foundations then show a King the game is won, with a vibration pulse.
     */
    method MoveToFoundation() returns (success: bool)
      requires Shape() && Inv(Abs())
      modifies stock, foundation, hiddenCount, tableauCount, this`stockCount, this`talon, this`talonShowing
      modifies this`score, this`win, this`pulses
      ensures Shape() && Abs() == Rules.MoveToFoundation(old(Abs()), source)
      ensures success == (FoundationSlot(old(Abs()), source) < FoundationSlots)
      ensures score == old(score) + if success then 5 else 0
      ensures win == (old(win) || (success && AllKings(foundation[..])))
      ensures pulses == old(pulses) + if success && AllKings(foundation[..]) then 1 else 0
    {
      var i := CanMoveToFoundations(Abs());
      success := i <= FoundationSlots - 1;
      if success {
        PlaceOnFoundation(i);
        ScoreFoundationMove();
      }
    }

    /** The bookkeeping after a card reaches a foundation: five points, and the win once every foundation holds a King. */
    method ScoreFoundationMove()
      requires foundation.Length == FoundationSlots
      modifies this`score, this`win, this`pulses
      ensures score == old(score) + 5
      ensures win == (old(win) || AllKings(foundation[..]))
      ensures pulses == old(pulses) + if AllKings(foundation[..]) then 1 else 0
    {
      score := score + 5;
      var all := AllFoundationsKings();
      if all {
        pulses := pulses + 1;
        win := true;
      }
    }

    /** The card move of move_to_foundation: the foundation is written first, then the card is taken off its pile. */
    method PlaceOnFoundation(i: int)
      requires Shape() && Inv(Abs()) && 0 <= i < FoundationSlots && i == FoundationSlot(Abs(), source)
      modifies stock, foundation, hiddenCount, tableauCount, this`stockCount, this`talon, this`talonShowing
      ensures Shape() && Abs() == Rules.MoveToFoundation(old(Abs()), source)
    {
      ghost var b := Abs();
      var c := GetSourceCard();
      FoundationSlotSpec(b, source);
      foundation[i] := c;
      assert Abs() == b.(foundation := b.foundation[i := c]);
      RemoveAfterFoundation(b, source, i, c);
      RemoveSourceCard();
    }

    /**
     * automatically_move_to_foundations: passes over the tableau piles,
     * each non-empty one becoming the source and giving its top card to a
     * foundation if it can, until a pass moves nothing.
     */
    method AutomaticallyMoveToFoundations()
      requires Shape() && Inv(Abs())
      modifies stock, foundation, hiddenCount, tableauCount, this`stockCount, this`talon, this`talonShowing
      modifies this`score, this`win, this`pulses, this`source
      ensures Shape() && Abs() == Sweep(old(Abs()), old(source)).board
      ensures source == Sweep(old(Abs()), old(source)).source
      ensures score == old(score) + 5 * (TableauSize(old(Abs())) - TableauSize(Abs()))
      ensures win == (old(win) || (TableauSize(Abs()) < TableauSize(old(Abs())) && AllKings(foundation[..])))
      ensures pulses == old(pulses) + if TableauSize(Abs()) < TableauSize(old(Abs())) && AllKings(foundation[..]) then 1 else 0
    {
      ghost var b0 := Abs();
      ghost var target := Sweep(b0, source);
      var success := true;
      while success
        invariant Shape() && Inv(Abs()) && TableauSize(Abs()) <= TableauSize(b0)
        invariant success ==> Sweep(Abs(), source).board == target.board && Sweep(Abs(), source).source == target.source
        invariant !success ==> Abs() == target.board && source == target.source
        invariant score == old(score) + 5 * (TableauSize(b0) - TableauSize(Abs()))
        invariant win == (old(win) || (TableauSize(Abs()) < TableauSize(b0) && AllKings(foundation[..])))
        invariant pulses == old(pulses) + if TableauSize(Abs()) < TableauSize(b0) && AllKings(foundation[..]) then 1 else 0
        decreases TableauSize(Abs()) + if success then 1 else 0
      {
        ghost var bp := Abs();
        ghost var sp := source;
        SweepUnfold(bp, sp);
        success := SweepOnePass();
      }
    }

    /** One pass of the sweep: each non-empty tableau pile becomes `source` and offers its top card to the foundations. */
    method SweepOnePass() returns (success: bool)
      requires Shape() && Inv(Abs())
      modifies stock, foundation, hiddenCount, tableauCount, this`stockCount, this`talon, this`talonShowing
      modifies this`score, this`win, this`pulses, this`source
      ensures Shape() && Inv(Abs())
      ensures SweepPass(old(Abs()), old(source)) == Swept(Abs(), success, source)
      ensures success == (TableauSize(Abs()) < TableauSize(old(Abs())))
      ensures !success ==> Abs() == old(Abs())
      ensures AllKings(old(foundation[..])) ==> !success
      ensures score == old(score) + 5 * (TableauSize(old(Abs())) - TableauSize(Abs()))
      ensures win == (old(win) || (success && AllKings(foundation[..])))
      ensures pulses == old(pulses) + if success && AllKings(foundation[..]) then 1 else 0
    {
      ghost var bp := Abs();
      ghost var sp := source;
      success := false;
      var i := 0;
      while i < TableauPiles
        invariant 0 <= i <= TableauPiles && Shape()
        invariant Swept(Abs(), success, source) == PassUpTo(bp, sp, i)
        invariant score == old(score) + 5 * (TableauSize(bp) - TableauSize(Abs()))
        invariant win == (old(win) || (TableauSize(Abs()) < TableauSize(bp) && AllKings(foundation[..])))
        invariant pulses == old(pulses) + if TableauSize(Abs()) < TableauSize(bp) && AllKings(foundation[..]) then 1 else 0
      {
        success := PassTurn(i, success, bp, sp, old(score), old(win), old(pulses));
        i := i + 1;
      }
      PassUpToSpec(bp, sp, TableauPiles);
    }

    /** Pile `i`'s turn in the sweep's pass, carrying the pass so far from `bp`, the score and the win. */
    method PassTurn(i: int, success: bool, ghost bp: Board, ghost sp: int, ghost score0: int, ghost win0: bool, ghost pulses0: nat)
      returns (next: bool)
      requires Shape() && Inv(bp) && 0 <= i < TableauPiles
      requires Swept(Abs(), success, source) == PassUpTo(bp, sp, i)
      requires score == score0 + 5 * (TableauSize(bp) - TableauSize(Abs()))
      requires win == (win0 || (TableauSize(Abs()) < TableauSize(bp) && AllKings(foundation[..])))
      requires pulses == pulses0 + if TableauSize(Abs()) < TableauSize(bp) && AllKings(foundation[..]) then 1 else 0
      modifies stock, foundation, hiddenCount, tableauCount, this`stockCount, this`talon, this`talonShowing
      modifies this`score, this`win, this`pulses, this`source
      ensures Shape() && Swept(Abs(), next, source) == PassUpTo(bp, sp, i + 1)
      ensures score == score0 + 5 * (TableauSize(bp) - TableauSize(Abs()))
      ensures win == (win0 || (TableauSize(Abs()) < TableauSize(bp) && AllKings(foundation[..])))
      ensures pulses == pulses0 + if TableauSize(Abs()) < TableauSize(bp) && AllKings(foundation[..]) then 1 else 0
    {
      ghost var p := Swept(Abs(), success, source);
      PassUpToSpec(bp, sp, i);
      var moved := OfferToFoundation(i);
      ghost var o := Swept(Abs(), moved, source);
      PassUpToStep(bp, sp, i, p, o);
      next := success || moved;
    }

    /** The body of the sweep's pass for pile `i`: a non-empty pile becomes `source` and tries move_to_foundation. */
    method OfferToFoundation(i: int) returns (moved: bool)
      requires Shape() && Inv(Abs()) && 0 <= i < TableauPiles
      modifies stock, foundation, hiddenCount, tableauCount, this`stockCount, this`talon, this`talonShowing
      modifies this`score, this`win, this`pulses, this`source
      ensures Shape() && Swept(Abs(), moved, source) == Offer(old(Abs()), i, old(source))
      ensures moved ==> TableauSize(Abs()) + 1 == TableauSize(old(Abs())) && !AllKings(old(foundation[..]))
      ensures !moved ==> Abs() == old(Abs())
      ensures score == old(score) + if moved then 5 else 0
      ensures win == (old(win) || (moved && AllKings(foundation[..])))
      ensures pulses == old(pulses) + if moved && AllKings(foundation[..]) then 1 else 0
    {
      ghost var b := Abs();
      ghost var src := source;
      moved := false;
      if tableauCount[i] > 0 {
        source := i;
        moved := MoveToFoundation();
      }
      OfferSpec(b, i, src);
    }

    // -------------------------------------------------------------------
    // The stock

    /**
     * deal_card_from_stock: advance the talon window past its cards, or
     * re-deal from the start of the stock when the window is at the end
     * and the flip limit allows, counting the flip; in draw-three mode the
     * window then shows up to three cards.
     */
    method DealCardFromStock()
      requires Shape() && Inv(Abs())
      modifies this`talon, this`talonShowing, this`flips
      ensures Shape()
      ensures (Abs(), flips) == DrawFromStock(old(Abs()), drawSetting != 0, flipLimitSetting, old(flips))
    {
      if stockCount > talonShowing + 1 {
        if talon + talonShowing + 1 == stockCount {
          if flipLimitSetting == 0 || (flipLimitSetting == 2 && flips < 1) || (flipLimitSetting == 3 && flips < 3) {
            talon := 0;
            flips := flips + 1;
          }
        } else {
          talon := talon + talonShowing + 1;
        }
        if drawSetting != 0 {
          talonShowing := stockCount - talon - 1;
          if talonShowing > MaxShowing {
            talonShowing := MaxShowing;
          }
        }
      }
    }

    // -------------------------------------------------------------------
    // The cursor

    /**
     * source_pile_is_valid: the talon always is; any other selection
     * becomes `source` and is valid when its card can go to a foundation or
     * to some tableau pile, which is searched with `selection` as the loop
     * variable and restored afterwards.
     */
    method SourcePileIsValid(ghost b: Board) returns (valid: bool)
      requires Shape() && Abs() == b && Inv(b) && 0 <= selection
      modifies this`source, this`selection
      ensures valid == SourceValid(b, old(selection))
      ensures Cur() == CheckSource(old(Cur()))
    {
      var savedSelection := selection;
      if selection == TalonPile {
        return true;
      }
      source := selection;
      var slot := CanMoveToFoundations(b);
      if slot <= FoundationSlots - 1 {
        return true;
      }
      valid := ScanTableau(b);
      selection := savedSelection;
    }

    /** The loop of source_pile_is_valid: `selection` runs over the tableau piles until one takes the source card. */
    method ScanTableau(ghost b: Board) returns (found: bool)
      requires Shape() && Abs() == b && Inv(b) && 0 <= source
      modifies this`selection
      ensures found == (TableauScan(b, source, 0) < TableauPiles)
      ensures selection == TableauScan(b, source, 0)
    {
      ghost var target := TableauScan(b, source, 0);
      selection := 0;
      while selection <= TableauPiles - 1
        invariant 0 <= selection <= TableauPiles
        invariant TableauScan(b, source, selection) == target
      {
        var ok := CanMoveToTableau(b);
        TableauScanStep(b, source, selection, ok);
        if ok {
          return true;
        }
        selection := selection + 1;
      }
      return false;
    }

    /** destination_pile_is_valid: the foundations, or a tableau pile, can take what `source` offers. */
    method DestinationPileIsValid(ghost b: Board) returns (valid: bool)
      requires Shape() && Abs() == b && Inv(b) && 0 <= source && IsDest(selection)
      ensures valid == DestValid(b, source, selection)
    {
      if selection == FoundationsPile {
        var slot := CanMoveToFoundations(b);
        return slot <= FoundationSlots - 1;
      }
      valid := CanMoveToTableau(b);
    }

    /**
     * select_talon: unless the game is won, source mode on the talon, or,
     * with the stock used up, on the first tableau pile that is a valid
     * source.
     */
    method SelectTalon(ghost b: Board)
      requires Shape() && Abs() == b && Inv(b) && 0 <= source
      modifies this`mode, this`selection, this`source
      ensures Cur() == Selection.SelectTalon(b, old(Cur()), win)
    {
      if win {
        return;
      }
      mode := SelectSource;
      if stockCount < 1 {
        SelectFirstSource(b);
      } else {
        selection := TalonPile;
      }
    }

    /** select_talon with the stock used up: the first valid tableau source, else the talon. */
    method SelectFirstSource(ghost b: Board)
      requires Shape() && Abs() == b && Inv(b)
      modifies this`selection, this`source
      ensures var i := TalonScan(b, 0);
        selection == i && source == if i < TableauPiles then i else TableauPiles - 1
    {
      var found := ScanSources(b);
      if !found {
        selection := TalonPile;
      }
    }

    /** The loop of select_talon: each tableau pile in turn is selected and checked as a source. */
    method ScanSources(ghost b: Board) returns (found: bool)
      requires Shape() && Abs() == b && Inv(b)
      modifies this`selection, this`source
      ensures found == (TalonScan(b, 0) < TableauPiles)
      ensures found ==> selection == source == TalonScan(b, 0)
      ensures !found ==> source == TableauPiles - 1
    {
      var i := 0;
      while i <= TableauPiles - 1
        invariant 0 <= i <= TableauPiles
        invariant TalonScan(b, i) == TalonScan(b, 0)
        invariant 0 < i ==> source == i - 1
      {
        var valid := CheckPile(i, b);
        TalonScanStep(b, i, valid);
        if valid {
          return true;
        }
        i := i + 1;
      }
      return false;
    }

    /** One turn of select_talon's loop: tableau pile `i` is selected and checked, and becomes `source`. */
    method CheckPile(i: int, ghost b: Board) returns (valid: bool)
      requires Shape() && Abs() == b && Inv(b) && 0 <= i < TableauPiles
      modifies this`selection, this`source
      ensures valid == SourceValid(b, i) && selection == source == i
    {
      selection := i;
      valid := SourcePileIsValid(b);
    }

    /**
     * select_next_valid_pile: in source mode the next valid source, the
     * talon handing over to select_talon; in destination mode the next
     * valid destination among 0..6 and 8, back to source mode through
     * select_talon once the first candidate comes round again.
     */
    method SelectNextValidPile()
      requires Shape() && Inv(Abs()) && CursorOk(Cur())
      modifies this`mode, this`selection, this`source
      ensures Cur() == SelectNext(Abs(), old(Cur()), win)
    {
      if mode == SelectSource {
        NextSource();
      } else {
        NextDestination();
      }
    }

    /** The source-mode loop of select_next_valid_pile: on to the next valid source, the talon through select_talon. */
    method NextSource()
      requires Shape() && Inv(Abs()) && CursorOk(Cur()) && mode == SelectSource
      modifies this`mode, this`selection, this`source
      ensures Cur() == SourceScan(Abs(), old(Cur()), SourceStep(old(selection)), win)
    {
      ghost var b := Abs();
      ghost var target := SourceScan(b, Cur(), SourceStep(selection), win);
      while true
        invariant 0 <= selection <= FoundationsPile && 0 <= source && mode == SelectSource
        invariant SourceScan(b, Cur(), SourceStep(selection), win) == target
        decreases TalonPile - SourceStep(selection)
      {
        var done := TryNextSource(b);
        if done {
          return;
        }
      }
    }

    /**
     * One turn of the source-mode loop: the next candidate, 8 wrapping to
     * 0, is checked (and becomes `source`); done if it is valid, through
     * select_talon if that is the talon.
     */
    method TryNextSource(ghost b: Board) returns (done: bool)
      requires Shape() && Abs() == b && Inv(b) && 0 <= selection <= FoundationsPile && 0 <= source && mode == SelectSource
      modifies this`mode, this`selection, this`source
      ensures done ==> Cur() == SourceScan(b, old(Cur()), SourceStep(old(selection)), win)
      ensures !done ==> mode == SelectSource && selection == SourceStep(old(selection)) < TalonPile && 0 <= source
      ensures !done ==> SourceScan(b, old(Cur()), SourceStep(old(selection)), win) == SourceScan(b, Cur(), SourceStep(selection), win)
    {
      ghost var c := Cur();
      selection := selection + 1;
      if selection >= FoundationsPile {
        selection := 0;
      }
      ghost var s := selection;
      assert s == SourceStep(c.selection);
      done := SourcePileIsValid(b);
      SourceScanStep(b, c, s, win, done);
      if done && selection == TalonPile {
        SelectTalon(b);
      }
    }

    /**
     * The destination-mode loop of select_next_valid_pile: on to the next
     * valid destination, back to source mode through select_talon once the
     * first candidate comes round again.  The first pass through the loop
     * remembers its candidate in `wrapped`; `NextDestinationAfter` runs
     * the remaining ones.
     */
    method NextDestination()
      requires Shape() && Inv(Abs()) && CursorOk(Cur()) && mode == SelectDest
      modifies this`mode, this`selection, this`source
      ensures Cur() == NextDest(Abs(), old(Cur()), win)
    {
      ghost var b, c := Abs(), Cur();
      var wrapped := -1;
      AdvanceDestination();
      wrapped := selection;
      assert Cur() == c.(selection := wrapped) && IsDest(wrapped);
      var valid := DestinationPileIsValid(b);
      if !valid {
        NextDestinationAfter(wrapped, b);
      }
    }

    /** The step of the destination-mode loop: one pile on, the talon skipped, past the foundations back to pile 0. */
    method AdvanceDestination()
      requires 0 <= selection <= FoundationsPile
      modifies this`selection
      ensures selection == DestStep(old(selection))
    {
      selection := selection + 1;
      if selection == TalonPile {
        selection := FoundationsPile;
      }
      if selection > FoundationsPile {
        selection := 0;
      }
    }

    /** The destination-mode loop after its first candidate `wrapped`. */
    method NextDestinationAfter(wrapped: int, ghost b: Board)
      requires Shape() && Abs() == b && Inv(b) && IsDest(selection) && IsDest(wrapped) && 0 <= source && mode == SelectDest
      modifies this`mode, this`selection, this`source
      ensures Cur() == DestScan(b, old(Cur()), wrapped, win)
    {
      ghost var target := DestScan(b, Cur(), wrapped, win);
      while true
        invariant IsDest(selection) && 0 <= source && mode == SelectDest
        invariant DestScan(b, Cur(), wrapped, win) == target
        decreases Dist(DestStep(selection), wrapped)
      {
        DestStepAdvances(selection);
        var done := TryNextDestination(wrapped, b);
        if done {
          return;
        }
        DestStepAdvances(selection);
      }
    }

    /**
     * One turn of the destination-mode loop: the next candidate; back to
     * source mode through select_talon if it is `wrapped`, done if it is
     * valid, else on to the next turn.
     */
    method TryNextDestination(wrapped: int, ghost b: Board) returns (done: bool)
      requires Shape() && Abs() == b && Inv(b) && IsDest(selection) && IsDest(wrapped) && 0 <= source && mode == SelectDest
      modifies this`mode, this`selection, this`source
      ensures done ==> Cur() == DestScan(b, old(Cur()), wrapped, win)
      ensures !done ==> Cur() == old(Cur()).(selection := DestStep(old(selection))) && selection != wrapped
      ensures !done ==> DestScan(b, old(Cur()), wrapped, win) == DestScan(b, Cur(), wrapped, win)
    {
      DestScanStep(b, Cur(), wrapped, win);
      AdvanceDestination();
      if wrapped == selection {
        mode := SelectSource;
        SelectTalon(b);
        return true;
      }
      done := DestinationPileIsValid(b);
    }

    /** select_valid_pile: keep the selection if it is valid (a source check still sets `source`), else move on. */
    method SelectValidPile()
      requires Shape() && Inv(Abs()) && CursorOk(Cur())
      modifies this`mode, this`selection, this`source
      ensures Cur() == SelectValid(Abs(), old(Cur()), win)
    {
      if mode == SelectSource {
        var valid := SourcePileIsValid(Abs());
        if !valid {
          SelectNextValidPile();
        }
      } else {
        var valid := DestinationPileIsValid(Abs());
        if !valid {
          SelectNextValidPile();
        }
      }
    }
  
    // -------------------------------------------------------------------
    // The buttons

    /** The up button: the next valid pile. */
    method Up()
      requires Valid()
      modifies this`mode, this`selection, this`source
      ensures Valid() && Now() == Commands.Up(old(Now()))
    {
      ghost var p := Now();
      if win {
        return;
      }
      SelectNextValidPile();
      Commands.UpKeepsPlay(p, drawSetting != 0);
    }

    /** The select button: begin a move on a valid source, or complete it on the selected destination. */
    method Select()
      requires Valid()
      modifies stock, foundation, tableau, hiddenCount, tableauCount, this`stockCount, this`talon, this`talonShowing
      modifies this`mode, this`selection, this`source, this`score, this`win, this`pulses
      ensures Valid() && Now() == Commands.Select(old(Now()))
      ensures pulses == old(pulses) + if win && !old(win) then 1 else 0
    {
      if win {
        return;
      }
      SelectMove();
      ValidFromPlay();
    }

    /** select once the game is not won, on the whole play; it keeps the play legal. */
    method SelectMove()
      requires Shape() && Commands.PlayOk(Now(), drawSetting != 0) && !win
      modifies stock, foundation, tableau, hiddenCount, tableauCount, this`stockCount, this`talon, this`talonShowing
      modifies this`mode, this`selection, this`source, this`score, this`win, this`pulses
      ensures Shape() && Now() == Commands.Select(old(Now())) && Commands.PlayOk(Now(), drawSetting != 0)
      ensures pulses == old(pulses) + if win then 1 else 0
    {
      Commands.SelectKeepsPlay(Now(), drawSetting != 0);
      if mode == SelectSource {
        PickPlay();
      } else if selection == FoundationsPile {
        FoundationPlay();
      } else {
        TableauPlay();
      }
    }

    /** select in source mode, on the whole play. */
    method PickPlay()
      requires Shape() && Inv(Abs()) && CursorOk(Cur()) && !win && mode == SelectSource
      modifies this`mode, this`selection, this`source
      ensures Shape() && Now() == Commands.Select(old(Now()))
    {
      Commands.SelectOnSource(Now());
      PickSource();
    }

    /** select on the foundations, on the whole play. */
    method FoundationPlay()
      requires Shape() && Inv(Abs()) && CursorOk(Cur()) && !win && mode == SelectDest && selection == FoundationsPile
      modifies stock, foundation, hiddenCount, tableauCount, this`stockCount, this`talon, this`talonShowing
      modifies this`mode, this`selection, this`source, this`score, this`win, this`pulses
      ensures Shape() && Now() == Commands.Select(old(Now()))
      ensures pulses == old(pulses) + if win then 1 else 0
    {
      Commands.SelectOnFoundations(Now());
      FinishOnFoundation();
    }

    /** select on a tableau pile, on the whole play. */
    method TableauPlay()
      requires Shape() && Inv(Abs()) && CursorOk(Cur()) && !win && mode == SelectDest && selection != FoundationsPile
      modifies stock, tableau, hiddenCount, tableauCount, this`stockCount, this`talon, this`talonShowing
      modifies this`mode, this`selection, this`source
      ensures Shape() && Now() == Commands.Select(old(Now()))
    {
      Commands.SelectOnTableau(Now());
      FinishOnTableau();
    }

    /** select in source mode: a valid pile becomes the source and the cursor looks for a destination, from the foundations on. */
    method PickSource()
      requires Shape() && Inv(Abs()) && CursorOk(Cur()) && !win && mode == SelectSource
      modifies this`mode, this`selection, this`source
      ensures Cur() == if SourceValid(Abs(), old(selection))
        then SelectValid(Abs(), Cursor(SelectDest, FoundationsPile, old(selection)), win)
        else CheckSource(old(Cur()))
    {
      var valid := SourcePileIsValid(Abs());
      if valid {
        BeginMove();
      }
    }

    /** The selected pile becomes the source; the cursor goes to destination mode on the foundations, or on to a valid destination. */
    method BeginMove()
      requires Shape() && Inv(Abs()) && 0 <= selection <= FoundationsPile
      modifies this`mode, this`selection, this`source
      ensures Cur() == SelectValid(Abs(), Cursor(SelectDest, FoundationsPile, old(selection)), win)
    {
      mode, source, selection := SelectDest, selection, FoundationsPile;
      SelectValidPile();
    }

    /** select on the foundations: the move to a foundation, then source mode through select_talon. */
    method FinishOnFoundation()
      requires Shape() && Inv(Abs()) && CursorOk(Cur()) && !win && mode == SelectDest && selection == FoundationsPile
      modifies stock, foundation, hiddenCount, tableauCount, this`stockCount, this`talon, this`talonShowing
      modifies this`mode, this`selection, this`source, this`score, this`win, this`pulses
      ensures Shape() && Abs() == Rules.MoveToFoundation(old(Abs()), old(source)) && Inv(Abs())
      ensures score == old(score) + if FoundationSlot(old(Abs()), old(source)) < FoundationSlots then 5 else 0
      ensures win == (FoundationSlot(old(Abs()), old(source)) < FoundationSlots && AllKings(foundation[..]))
      ensures pulses == old(pulses) + if win then 1 else 0
      ensures Cur() == Selection.SelectTalon(Abs(), old(Cur()).(mode := SelectSource), win)
    {
      ghost var b := Abs();
      MoveToFoundationKeepsInv(b, source);
      var moved := MoveToFoundation();
      assert Inv(Abs());
      ReturnToTalon();
    }

    /** The end of a move to the foundations: source mode, through select_talon. */
    method ReturnToTalon()
      requires Shape() && Inv(Abs()) && 0 <= source
      modifies this`mode, this`selection, this`source
      ensures Cur() == Selection.SelectTalon(Abs(), old(Cur()).(mode := SelectSource), win)
    {
      mode := SelectSource;
      SelectTalon(Abs());
    }

    /** select on a tableau pile: the move to it, then source mode on a valid pile. */
    method FinishOnTableau()
      requires Shape() && Inv(Abs()) && CursorOk(Cur()) && !win && mode == SelectDest && selection != FoundationsPile
      modifies stock, tableau, hiddenCount, tableauCount, this`stockCount, this`talon, this`talonShowing
      modifies this`mode, this`selection, this`source
      ensures Shape() && Abs() == Rules.MoveToTableau(old(Abs()), old(source), old(selection)) && Inv(Abs())
      ensures Cur() == SelectValid(Abs(), old(Cur()).(mode := SelectSource), win)
    {
      ghost var b := Abs();
      MoveToTableauKeepsInv(b, source, selection);
      MoveToTableau();
      assert Inv(Abs());
      ReturnToValid();
    }

    /** The end of a move or a sweep: source mode on a valid pile. */
    method ReturnToValid()
      requires Shape() && Inv(Abs()) && 0 <= selection <= FoundationsPile && 0 <= source <= FoundationsPile
      modifies this`mode, this`selection, this`source
      ensures Cur() == SelectValid(Abs(), old(Cur()).(mode := SelectSource), win)
    {
      mode := SelectSource;
      SelectValidPile();
    }

    /** The same, stated on the whole play. */
    method Settle()
      requires Shape() && Inv(Abs()) && CursorOk(Cur())
      modifies this`mode, this`selection, this`source
      ensures Shape() && Now() == Commands.Settle(old(Now()))
    {
      ReturnToValid();
    }

    /** A legal play and the settings bytes make the state valid. */
    lemma ValidFromPlay()
      requires Shape() && Commands.PlayOk(Now(), drawSetting != 0)
      requires IsByte(drawSetting) && IsByte(flipLimitSetting) && IsByte(scoreSetting)
      ensures Valid()
    {
    }

    /** The sweep of long down, stated on the whole play. */
    method SweepPlay()
      requires Shape() && Inv(Abs()) && CursorOk(Cur()) && !win
      modifies stock, foundation, hiddenCount, tableauCount, this`stockCount, this`talon, this`talonShowing
      modifies this`source, this`score, this`win, this`pulses
      ensures Shape() && Now() == Commands.SweepPlay(old(Now()))
      ensures pulses == old(pulses) + if win then 1 else 0
    {
      ghost var r := Commands.SweepPlay(Now());
      AutomaticallyMoveToFoundations();
      assert Abs() == r.board && Cur() == r.cursor;
    }

    /** long down once the game is not won, on the whole play; it keeps the play legal. */
    method LongDownMove()
      requires Shape() && Commands.PlayOk(Now(), drawSetting != 0) && !win
      modifies stock, foundation, hiddenCount, tableauCount, this`stockCount, this`talon, this`talonShowing
      modifies this`mode, this`selection, this`source, this`score, this`win, this`pulses
      ensures Shape() && Now() == Commands.LongDown(old(Now())) && Commands.PlayOk(Now(), drawSetting != 0)
      ensures pulses == old(pulses) + if win then 1 else 0
    {
      ghost var p := Now();
      SweepAndSettle();
      Commands.LongDownKeepsPlay(p, drawSetting != 0);
    }

    /** The sweep and the return to source mode of long down. */
    method SweepAndSettle()
      requires Shape() && Inv(Abs()) && CursorOk(Cur()) && !win
      modifies stock, foundation, hiddenCount, tableauCount, this`stockCount, this`talon, this`talonShowing
      modifies this`mode, this`selection, this`source, this`score, this`win, this`pulses
      ensures Shape() && Now() == Commands.LongDown(old(Now()))
      ensures pulses == old(pulses) + if win then 1 else 0
    {
      SweepPlay();
      Settle();
    }

    /** The down button: a card from the stock in source mode, the move abandoned otherwise; then the talon. */
    method Down()
      requires Valid()
      modifies this`talon, this`talonShowing, this`flips, this`mode, this`selection, this`source
      ensures Valid() && Now() == Commands.Down(old(Now()), drawSetting != 0, flipLimitSetting)
    {
      if win {
        return;
      }
      DownMove();
      ValidFromPlay();
    }

    /** down once the game is not won, on the whole play; it keeps the play legal. */
    method DownMove()
      requires Shape() && Commands.PlayOk(Now(), drawSetting != 0) && !win
      modifies this`talon, this`talonShowing, this`flips, this`mode, this`selection, this`source
      ensures Shape() && Now() == Commands.Down(old(Now()), drawSetting != 0, flipLimitSetting)
      ensures Commands.PlayOk(Now(), drawSetting != 0)
    {
      Commands.DownKeepsPlay(Now(), drawSetting != 0, flipLimitSetting);
      DrawPlay();
      TalonPlay();
    }

    /** The deal of down, on the whole play. */
    method DrawPlay()
      requires Shape() && Inv(Abs()) && (drawSetting == 0 ==> talonShowing == 0)
      modifies this`talon, this`talonShowing, this`flips
      ensures Shape() && Now() == Commands.Drawn(old(Now()), drawSetting != 0, flipLimitSetting)
    {
      if mode == SelectSource {
        DealCardFromStock();
      }
    }

    /** select_talon, on the whole play. */
    method TalonPlay()
      requires Shape() && Inv(Abs()) && 0 <= source
      modifies this`mode, this`selection, this`source
      ensures Shape() && Now() == Commands.ToTalon(old(Now()))
    {
      SelectTalon(Abs());
    }

    /** The long down button: the sweep to the foundations, then source mode on a valid pile. */
    method LongDown()
      requires Valid()
      modifies stock, foundation, hiddenCount, tableauCount, this`stockCount, this`talon, this`talonShowing
      modifies this`mode, this`selection, this`source, this`score, this`win, this`pulses
      ensures Valid() && Now() == Commands.LongDown(old(Now()))
      ensures pulses == old(pulses) + if win && !old(win) then 1 else 0
    {
      ghost var p := Now();
      if win {
        return;
      }
      LongDownMove();
      ValidFromPlay();
    }

    // -------------------------------------------------------------------
    // The deal

    /**
     * rnd: step the generator until the top five bits of the seed are at
     * most `max`, for at most one period of the generator.
     */
    method Rnd(max: int) returns (v: int)
      modifies this`seed
      ensures Rng.Draw(v, seed) == Rng.Rnd(old(seed), max)
    {
      ghost var target := Rng.Rnd(seed, max);
      var fuel := Rng.Period;
      seed := Rng.Next(seed);
      v := seed / Rng.TopShift;
      while v > max && fuel > 1
        invariant 1 <= fuel <= Rng.Period && 0 <= seed < Rng.Modulus && v == Rng.Top(seed)
        invariant target == if v <= max || fuel == 1 then Rng.Draw(v, seed) else Rng.RndFrom(seed, max, fuel - 1)
        decreases fuel
      {
        seed := Rng.Next(seed);
        v := seed / Rng.TopShift;
        fuel := fuel - 1;
      }
    }

    /** The shuffle of shuffle_and_deal: the seed from the clock, the ordered deck, then the swap loop from the top down. */
    method Shuffle(time: int)
      requires deck.Length == DeckSize
      modifies deck, this`seed
      ensures Rng.Shuffled(deck[..], seed) == Rng.ShuffleFrom(Rng.Ordered(DeckSize), DeckSize - 1, time)
      ensures multiset(deck[..]) == multiset(Rng.Ordered(DeckSize))
    {
      seed := time;
      OrderDeck();
      var i := DeckSize - 1;
      while i >= 1
        invariant 0 <= i < DeckSize
        invariant Rng.ShuffleFrom(deck[..], i, seed) == Rng.ShuffleFrom(Rng.Ordered(DeckSize), DeckSize - 1, time)
      {
        SwapStep(i);
        i := i - 1;
      }
    }

    method OrderDeck()
      requires deck.Length == DeckSize
      modifies deck
      ensures deck[..] == Rng.Ordered(DeckSize)
    {
      var i := 0;
      while i < DeckSize
        invariant 0 <= i <= DeckSize && forall k :: 0 <= k < i ==> deck[k] == k
      {
        deck[i] := i;
        i := i + 1;
      }
    }

    /** One turn of the swap loop: position `i` trades places with a draw bounded by `i`. */
    method SwapStep(i: int)
      requires deck.Length == DeckSize && 1 <= i < DeckSize
      modifies deck, this`seed
      ensures Rng.ShuffleFrom(deck[..], i - 1, seed) == Rng.ShuffleFrom(old(deck[..]), i, old(seed))
    {
      ghost var d := deck[..];
      var j := Rnd(i);
      var k := deck[j];
      deck[j] := deck[i];
      deck[i] := k;
      assert deck[..] == Rng.Swap(d, i, j);
    }

    /** The first 24 cards of the deck become the stock. */
    method DealStock()
      requires Shape()
      modifies stock, this`stockCount
      ensures Shape() && stock[..stockCount] == deck[..StockCapacity]
    {
      var i := 0;
      while i < StockCapacity
        modifies stock
        invariant 0 <= i <= StockCapacity && forall k :: 0 <= k < i ==> stock[k] == deck[k]
      {
        stock[i] := deck[i];
        i := i + 1;
      }
      stockCount := StockCapacity;
    }

    method ClearFoundations()
      requires foundation.Length == FoundationSlots
      modifies foundation
      ensures foundation[..] == [NoCard, NoCard, NoCard, NoCard]
    {
      var i := 0;
      while i < FoundationSlots
        invariant 0 <= i <= FoundationSlots && forall k :: 0 <= k < i ==> foundation[k] == NoCard
      {
        foundation[i] := NoCard;
        i := i + 1;
      }
    }

    /** The deal loops over the piles: pile `i` takes the next `i + 1` deck cards, the top one face up. */
    method DealTableau()
      requires Shape()
      modifies tableau, hiddenCount, tableauCount
      ensures Shape()
      ensures Rows() == Dealt(deck[..], false).piles && hiddenCount[..] == Dealt(deck[..], false).hidden
    {
      var i, k := 0, StockCapacity;
      while i < TableauPiles
        invariant Shape() && 0 <= i <= TableauPiles && k == StockCapacity + Tri(i)
        invariant forall p :: 0 <= p < i ==> hiddenCount[p] == p && Rows()[p] == DealtPile(deck[..], p)
      {
        k := DealPile(i, k);
        i := i + 1;
      }
      assert Rows() == Dealt(deck[..], false).piles;
    }

    /** Pile `i` of the deal: `i` face-down cards under one face-up card; the next free deck index is returned. */
    method DealPile(i: int, k: int) returns (next: int)
      requires Shape() && 0 <= i < TableauPiles && k == StockCapacity + Tri(i)
      modifies tableau, hiddenCount, tableauCount
      ensures Shape() && next == StockCapacity + Tri(i + 1)
      ensures Rows() == old(Rows())[i := DealtPile(deck[..], i)]
      ensures hiddenCount[..] == old(hiddenCount[..])[i := i]
    {
      TriBound(i + 1);
      ghost var rows := Rows();
      next := FillRow(i, k);
      hiddenCount[i] := i;
      tableauCount[i] := i + 1;
      assert Rows()[i] == DealtPile(deck[..], i);
      forall p | 0 <= p < TableauPiles && p != i ensures Rows()[p] == rows[p] {
      }
    }

    /** The inner deal loop: deck cards `k .. k + i` go to row `i` from the bottom up. */
    method FillRow(i: int, k: int) returns (next: int)
      requires TableauShape() && deck.Length == DeckSize && 0 <= i < TableauPiles && 0 <= k && k + i < DeckSize
      modifies tableau
      ensures next == k + i + 1
      ensures forall q :: 0 <= q <= i ==> tableau[i, q] == deck[k + q]
      ensures forall p, q :: 0 <= p < TableauPiles && p != i && 0 <= q < PileCapacity ==> tableau[p, q] == old(tableau[p, q])
    {
      var j := 0;
      next := k;
      while j <= i
        invariant 0 <= j <= i + 1 && next == k + j
        invariant forall q :: 0 <= q < j ==> tableau[i, q] == deck[k + q]
        invariant forall p, q :: 0 <= p < TableauPiles && p != i && 0 <= q < PileCapacity ==> tableau[p, q] == old(tableau[p, q])
      {
        tableau[i, j] := deck[next];
        j, next := j + 1, next + 1;
      }
    }

    /** The deal of shuffle_and_deal, from the shuffled deck: stock, empty foundations, the seven piles. */
    method Deal()
      requires Shape() && multiset(deck[..]) == multiset(Rng.Ordered(DeckSize))
      modifies stock, foundation, tableau, hiddenCount, tableauCount, this`stockCount, this`talon, this`talonShowing
      ensures Shape() && Abs() == Dealt(deck[..], drawSetting != 0) && Inv(Abs())
    {
      Commands.DealtDeck(deck[..], drawSetting != 0);
      DealStock();
      talon := 0;
      talonShowing := if drawSetting != 0 then MaxShowing else 0;
      ClearFoundations();
      DealTableau();
    }

    /**
     * shuffle_and_deal: a shuffle seeded with the clock reading `time`, then
     * the deal of the shuffled deck, on the whole play.
     */
    method ShuffleAndDeal(time: int)
      requires Valid()
      modifies deck, stock, foundation, tableau, hiddenCount, tableauCount, this`stockCount, this`talon, this`talonShowing
      modifies this`seed, this`win, this`score, this`flips, this`mode, this`selection, this`source
      ensures Valid()
      ensures Rng.Shuffled(deck[..], seed) == Rng.ShuffleFrom(Rng.Ordered(DeckSize), DeckSize - 1, time)
      ensures Now() == Commands.Redeal(old(Now()), deck[..], drawSetting != 0)
    {
      ShuffleMove(time);
      ValidFromPlay();
    }

    /** The shuffle and the deal, on the whole play; it leaves a legal play. */
    method ShuffleMove(time: int)
      requires Shape() && CursorOk(Cur())
      modifies deck, stock, foundation, tableau, hiddenCount, tableauCount, this`stockCount, this`talon, this`talonShowing
      modifies this`seed, this`win, this`score, this`flips, this`mode, this`selection, this`source
      ensures Shape() && Commands.PlayOk(Now(), drawSetting != 0)
      ensures Rng.Shuffled(deck[..], seed) == Rng.ShuffleFrom(Rng.Ordered(DeckSize), DeckSize - 1, time)
      ensures Now() == Commands.Redeal(old(Now()), deck[..], drawSetting != 0)
    {
      ghost var p := Now();
      Shuffle(time);
      assert Now() == p;
      DealMove();
    }

    /** The deal and select_talon, on the whole play; it leaves a legal play. */
    method DealMove()
      requires Shape() && CursorOk(Cur()) && multiset(deck[..]) == multiset(Rng.Ordered(DeckSize))
      modifies stock, foundation, tableau, hiddenCount, tableauCount, this`stockCount, this`talon, this`talonShowing
      modifies this`win, this`score, this`flips, this`mode, this`selection, this`source
      ensures Shape() && Now() == Commands.Redeal(old(Now()), deck[..], drawSetting != 0)
      ensures Commands.PlayOk(Now(), drawSetting != 0)
    {
      Commands.RedealSpec(Now(), deck[..], drawSetting != 0);
      DealPlay();
      TalonPlay();
    }

    /** The deal with its score and flip count, on the whole play. */
    method DealPlay()
      requires Shape() && multiset(deck[..]) == multiset(Rng.Ordered(DeckSize))
      modifies stock, foundation, tableau, hiddenCount, tableauCount, this`stockCount, this`talon, this`talonShowing
      modifies this`win, this`score, this`flips
      ensures Shape() && Inv(Abs())
      ensures Now() == Commands.Dealt(old(Now()), deck[..], drawSetting != 0)
    {
      Deal();
      win, score, flips := false, score - DeckSize, 0;
    }

    // -------------------------------------------------------------------
    // Saving (save_state)

    /** `state` is a buffer of its own, none of the engine's arrays. */
    predicate Apart(state: array<int>) {
      state != stock && state != foundation && state != hiddenCount && state != tableauCount && state != deck
    }

    /**
     * save_state: the 82-byte image of the persisted fields.  The buffer
     * starts zeroed, so the bytes between the last card and offset 72 that
     * save_state leaves unwritten are 0 here.
     */
    method SaveState() returns (data: seq<int>)
      requires Valid()
      ensures Encodes(Snapshot(), data)
    {
      var state := new int[StateSize](_ => 0);
      Pack(state, Snapshot());
      data := state[..];
    }

    /** The writes of save_state into a zeroed buffer, for the state `s` the fields hold. */
    method Pack(state: array<int>, ghost s: Saved)
      requires Shape() && Savable(s) && s == Snapshot()
      requires state.Length == StateSize && Apart(state) && forall k :: 0 <= k < StateSize ==> state[k] == 0
      modifies state
      ensures Encodes(s, state[..])
    {
      assert s.board == Abs();
      PutStock(state, s);
      PutHeader(state, s);
      PutTableau(state, s);
      PutTrailer(state, s);
      assert Stored(state, s, 0, StateSize);
      forall k | 0 <= k < StateSize ensures IsByte(state[k]) {
        if !Written(s, k) {
          assert state[k] == 0;
        }
      }
    }

    /** The stock count at offset 0 and the stock cards from offset 20. */
    method PutStock(state: array<int>, ghost s: Saved)
      requires Shape() && Savable(s) && s.board.stock == stock[..stockCount]
      requires state.Length == StateSize && Apart(state)
      modifies state
      ensures Stored(state, s, StockCountAt, TalonAt) && Stored(state, s, BodyAt, BodyAt + stockCount)
      ensures forall k :: 0 <= k < StateSize && k != StockCountAt && !(BodyAt <= k < BodyAt + stockCount) ==> state[k] == old(state[k])
    {
      state[StockCountAt] := ToByte(stockCount);
      var i := 0;
      while i < stockCount
        invariant 0 <= i <= stockCount && state[StockCountAt] == ByteAt(s, StockCountAt)
        invariant forall k :: BodyAt <= k < BodyAt + i ==> Written(s, k) && state[k] == ByteAt(s, k)
        invariant forall k :: 0 <= k < StateSize && k != StockCountAt && !(BodyAt <= k < BodyAt + i) ==> state[k] == old(state[k])
      {
        StockByte(s, i);
        state[BodyAt + i] := ToByte(stock[i]);
        i := i + 1;
      }
    }

    /** The talon at offset 1 and the foundations at offsets 2..5. */
    method PutHeader(state: array<int>, ghost s: Saved)
      requires Shape() && Savable(s) && s.board.talon == talon && s.board.foundation == foundation[..]
      requires state.Length == StateSize && Apart(state)
      modifies state
      ensures Stored(state, s, TalonAt, CountAt)
      ensures forall k :: 0 <= k < StateSize && !(TalonAt <= k < CountAt) ==> state[k] == old(state[k])
    {
      state[TalonAt] := ToByte(talon);
      var i := 0;
      while i < FoundationSlots
        invariant 0 <= i <= FoundationSlots && state[TalonAt] == ByteAt(s, TalonAt)
        invariant forall k :: FoundationAt <= k < FoundationAt + i ==> state[k] == ByteAt(s, k)
        invariant forall k :: 0 <= k < StateSize && !(TalonAt <= k < FoundationAt + i) ==> state[k] == old(state[k])
      {
        state[FoundationAt + i] := ToByte(foundation[i]);
        i := i + 1;
      }
    }

    /** The pile counts at 6..12, the hidden counts at 13..19 and the pile cards after the stock cards. */
    method PutTableau(state: array<int>, ghost s: Saved)
      requires Shape() && Savable(s)
      requires |s.board.stock| == stockCount && s.board.piles == Rows() && s.board.hidden == hiddenCount[..]
      requires state.Length == StateSize && Apart(state)
      modifies state
      ensures Stored(state, s, CountAt, BodyAt) && Stored(state, s, BodyAt + stockCount, WinAt)
      ensures forall k :: 0 <= k < StateSize && !(CountAt <= k < BodyAt) && !(BodyAt + stockCount <= k < BodyAt + |Body(s.board)|) ==>
        state[k] == old(state[k])
    {
      var b := BodyAt + stockCount;
      var i := 0;
      while i < TableauPiles
        invariant 0 <= i <= TableauPiles && b == BodyAt + stockCount + |Flatten(s.board.piles[..i])|
        invariant Stored(state, s, CountAt, CountAt + i) && Stored(state, s, HiddenAt, HiddenAt + i)
        invariant Stored(state, s, BodyAt + stockCount, b)
        invariant forall k :: 0 <= k < StateSize && !(CountAt <= k < BodyAt) && !(BodyAt + stockCount <= k < b) ==> state[k] == old(state[k])
      {
        label Turn:
        var next := PutPile(state, s, i, b);
        forall k | BodyAt + stockCount <= k < next && Written(s, k) ensures state[k] == ByteAt(s, k) {
          if k < b {
            assert state[k] == old@Turn(state[k]);
          }
        }
        forall k | 0 <= k < StateSize && !(CountAt <= k < BodyAt) && !(BodyAt + stockCount <= k < next) ensures state[k] == old(state[k]) {
          assert state[k] == old@Turn(state[k]);
        }
        b, i := next, i + 1;
      }
      assert s.board.piles[..TableauPiles] == s.board.piles;
    }

    /** Pile `i`: its count, its hidden count, and its cards from offset `b` on. */
    method PutPile(state: array<int>, ghost s: Saved, i: int, b: int) returns (next: int)
      requires Shape() && Savable(s) && 0 <= i < TableauPiles
      requires |s.board.stock| == stockCount && s.board.piles == Rows() && s.board.hidden == hiddenCount[..]
      requires state.Length == StateSize && Apart(state)
      requires b == BodyAt + stockCount + |Flatten(s.board.piles[..i])|
      modifies state
      ensures next == b + |s.board.piles[i]| == BodyAt + stockCount + |Flatten(s.board.piles[..i + 1])|
      ensures state[CountAt + i] == ByteAt(s, CountAt + i) && state[HiddenAt + i] == ByteAt(s, HiddenAt + i)
      ensures forall k :: b <= k < next ==> Written(s, k) && state[k] == ByteAt(s, k)
      ensures forall k :: 0 <= k < StateSize && k != CountAt + i && k != HiddenAt + i && !(b <= k < next) ==> state[k] == old(state[k])
    {
      PutCounts(state, s, i);
      next := PutPileCards(state, s, i, b);
    }

    /** The count and the hidden count of pile `i`. */
    method PutCounts(state: array<int>, ghost s: Saved, i: int)
      requires Shape() && Savable(s) && 0 <= i < TableauPiles
      requires s.board.piles == Rows() && s.board.hidden == hiddenCount[..]
      requires state.Length == StateSize && Apart(state)
      modifies state
      ensures state[CountAt + i] == ByteAt(s, CountAt + i) && state[HiddenAt + i] == ByteAt(s, HiddenAt + i)
      ensures forall k :: 0 <= k < StateSize && k != CountAt + i && k != HiddenAt + i ==> state[k] == old(state[k])
    {
      state[CountAt + i] := ToByte(tableauCount[i]);
      state[HiddenAt + i] := ToByte(hiddenCount[i]);
    }

    /** The cards of pile `i`, from offset `b` on. */
    method PutPileCards(state: array<int>, ghost s: Saved, i: int, b: int) returns (next: int)
      requires Shape() && Savable(s) && 0 <= i < TableauPiles
      requires |s.board.stock| == stockCount && s.board.piles == Rows()
      requires state.Length == StateSize && Apart(state)
      requires b == BodyAt + stockCount + |Flatten(s.board.piles[..i])|
      modifies state
      ensures next == b + |s.board.piles[i]| == BodyAt + stockCount + |Flatten(s.board.piles[..i + 1])|
      ensures forall k :: b <= k < next ==> Written(s, k) && state[k] == ByteAt(s, k)
      ensures forall k :: 0 <= k < StateSize && !(b <= k < next) ==> state[k] == old(state[k])
    {
      PileEnd(s, i);
      next := PutCards(state, i, b);
      forall k | b <= k < next ensures Written(s, k) && state[k] == ByteAt(s, k) {
        var j := k - b;
        PileCardByte(s, i, j);
        assert state[b + j] == ToByte(tableau[i, j]) == ToByte(s.board.piles[i][j]);
      }
    }

    /** The card loop of save_state for pile `i`: its cards in order from offset `b` on. */
    method PutCards(state: array<int>, i: int, b: int) returns (next: int)
      requires TableauShape() && 0 <= i < TableauPiles && state != tableauCount
      requires 0 <= b && b + tableauCount[i] <= state.Length
      modifies state
      ensures next == b + tableauCount[i]
      ensures forall q :: 0 <= q < tableauCount[i] ==> state[b + q] == ToByte(tableau[i, q])
      ensures forall k :: 0 <= k < state.Length && !(b <= k < next) ==> state[k] == old(state[k])
    {
      next := b;
      var j := 0;
      while j < tableauCount[i]
        invariant 0 <= j <= tableauCount[i] && next == b + j
        invariant forall q :: 0 <= q < j ==> state[b + q] == ToByte(tableau[i, q])
        invariant forall k :: 0 <= k < state.Length && !(b <= k < next) ==> state[k] == old(state[k])
      {
        state[next] := ToByte(tableau[i, j]);
        j, next := j + 1, next + 1;
      }
    }

    /** The win flag, the settings, the flip count and the window at 72..77, the score at 78..81. */
    method PutTrailer(state: array<int>, ghost s: Saved)
      requires Savable(s) && s.win == win && s.drawSetting == drawSetting && s.flipLimitSetting == flipLimitSetting
      requires s.scoreSetting == scoreSetting && s.flips == flips && s.board.talonShowing == talonShowing && s.score == score
      requires state.Length == StateSize
      modifies state
      ensures Stored(state, s, WinAt, StateSize)
      ensures forall k :: 0 <= k < WinAt ==> state[k] == old(state[k])
    {
      state[WinAt] := if win then 1 else 0;
      state[DrawAt] := ToByte(drawSetting);
      state[FlipLimitAt] := ToByte(flipLimitSetting);
      state[ScoreSettingAt] := ToByte(scoreSetting);
      state[FlipsAt] := ToByte(flips);
      state[ShowingAt] := ToByte(talonShowing);
      PutScore(state);
      TrailerBytes(s);
      forall k | WinAt <= k < StateSize ensures state[k] == Trailer(s)[k - WinAt] {
        if ScoreAt <= k {
          assert Trailer(s)[k - WinAt] == ScoreBytes(score)[k - ScoreAt];
        }
      }
    }

    /** The last four bytes: the score, least significant byte first. */
    method PutScore(state: array<int>)
      requires state.Length == StateSize
      modifies state
      ensures forall k :: ScoreAt <= k < StateSize ==> state[k] == ScoreBytes(score)[k - ScoreAt]
      ensures forall k :: 0 <= k < ScoreAt ==> state[k] == old(state[k])
    {
      var bytes := ScoreBytes(score);
      state[ScoreAt], state[ScoreAt + 1], state[ScoreAt + 2], state[ScoreAt + 3] := bytes[0], bytes[1], bytes[2], bytes[3];
    }

    // -------------------------------------------------------------------
    // Loading (load_state)

    /**
     * load_state: nothing unless exactly 82 bytes were read; otherwise every
     * persisted field is read back from them and the cursor goes to the
     * talon through select_talon.
     */
    method LoadState(data: seq<int>) returns (ok: bool)
      requires Valid() && Loadable(data)
      modifies stock, foundation, tableau, hiddenCount, tableauCount, this`stockCount, this`talon, this`talonShowing
      modifies this`win, this`drawSetting, this`flipLimitSetting, this`scoreSetting, this`flips, this`score
      modifies this`mode, this`selection, this`source
      ensures Valid() && ok == (|data| == StateSize)
      ensures !ok ==> Snapshot() == old(Snapshot()) && Cur() == old(Cur())
      ensures ok ==> Snapshot() == Decode(data).value && Cur() == Selection.SelectTalon(Abs(), old(Cur()), win)
    {
      if |data| != StateSize {
        return false;
      }
      LoadMove(data);
      ValidFromPlay();
      return true;
    }

    /** load_state once the 82 bytes are read, on the whole play: a legal play. */
    method LoadMove(data: seq<int>)
      requires Shape() && CursorOk(Cur()) && Loadable(data) && |data| == StateSize
      modifies stock, foundation, tableau, hiddenCount, tableauCount, this`stockCount, this`talon, this`talonShowing
      modifies this`win, this`drawSetting, this`flipLimitSetting, this`scoreSetting, this`flips, this`score
      modifies this`mode, this`selection, this`source
      ensures Shape() && Snapshot() == Decode(data).value && Cur() == Selection.SelectTalon(Abs(), old(Cur()), win)
      ensures Commands.PlayOk(Now(), drawSetting != 0)
      ensures IsByte(drawSetting) && IsByte(flipLimitSetting) && IsByte(scoreSetting)
    {
      Unpack(data, Decode(data).value);
      Commands.ToTalonKeepsPlay(Now(), drawSetting != 0);
      TalonPlay();
    }

    /** The reads of load_state: every persisted field from its offsets. */
    method Unpack(data: seq<int>, ghost s: Saved)
      requires Shape() && |data| == StateSize && AllBytes(data) && LayoutFits(data) && s == Decode(data).value && Inv(s.board)
      modifies stock, foundation, tableau, hiddenCount, tableauCount, this`stockCount, this`talon, this`talonShowing
      modifies this`win, this`drawSetting, this`flipLimitSetting, this`scoreSetting, this`flips, this`score
      ensures Shape() && Snapshot() == s
    {
      LoadTrailer(data);
      LoadBoard(data, s.board);
    }

    /** The win flag, the settings, the flip count, the window and the score from offsets 72..81. */
    method LoadTrailer(data: seq<int>)
      requires |data| == StateSize && AllBytes(data) && LayoutFits(data)
      modifies this`win, this`drawSetting, this`flipLimitSetting, this`scoreSetting, this`flips, this`talonShowing, this`score
      ensures var s := Decode(data).value;
        win == s.win && drawSetting == s.drawSetting && flipLimitSetting == s.flipLimitSetting &&
        scoreSetting == s.scoreSetting && flips == s.flips && talonShowing == s.board.talonShowing && score == s.score
    {
      win := data[WinAt] != 0;
      drawSetting := data[DrawAt];
      flipLimitSetting := data[FlipLimitAt];
      scoreSetting := data[ScoreSettingAt];
      flips := data[FlipsAt];
      talonShowing := data[ShowingAt];
      score := DecodeScore(data[ScoreAt..StateSize]);
    }

    /** The board from its offsets, the window already read. */
    method LoadBoard(data: seq<int>, ghost b: Board)
      requires Shape() && |data| == StateSize && AllBytes(data) && LayoutFits(data) && b == DecodeBoard(data) && Inv(b)
      requires talonShowing == b.talonShowing
      modifies stock, foundation, tableau, hiddenCount, tableauCount, this`stockCount, this`talon
      ensures Shape() && Abs() == b
    {
      LoadStock(data, b);
      LoadHeader(data, b);
      forall p | 0 <= p < TableauPiles ensures |b.piles[p]| <= PileCapacity {
        PileWithinCapacity(b.piles[p], b.hidden[p]);
      }
      LoadTableau(data, b);
    }

    /** The stock count from offset 0 and the stock cards from offset 20. */
    method LoadStock(data: seq<int>, ghost b: Board)
      requires Shape() && |data| == StateSize && AllBytes(data) && LayoutFits(data) && b == DecodeBoard(data) && Shaped(b)
      modifies stock, this`stockCount
      ensures Shape() && stock[..stockCount] == b.stock
    {
      stockCount := data[StockCountAt];
      var i := 0;
      while i < stockCount
        modifies stock
        invariant 0 <= i <= stockCount && forall k :: 0 <= k < i ==> stock[k] == data[BodyAt + k]
      {
        stock[i] := data[BodyAt + i];
        i := i + 1;
      }
    }

    /** The talon from offset 1 and the foundations from offsets 2..5, 255 standing for an empty one. */
    method LoadHeader(data: seq<int>, ghost b: Board)
      requires foundation.Length == FoundationSlots
      requires |data| == StateSize && AllBytes(data) && LayoutFits(data) && b == DecodeBoard(data)
      modifies foundation, this`talon
      ensures talon == b.talon && foundation[..] == b.foundation
    {
      talon := data[TalonAt];
      var i := 0;
      while i < FoundationSlots
        modifies foundation
        invariant 0 <= i <= FoundationSlots && forall k :: 0 <= k < i ==> foundation[k] == b.foundation[k]
      {
        assert b.foundation[i] == DecodeFoundation(data[FoundationAt + i]);
        foundation[i] := data[FoundationAt + i];
        if foundation[i] == 255 {
          foundation[i] := NoCard;
        }
        i := i + 1;
      }
    }

    /** The pile counts from 6..12, the hidden counts from 13..19 and the pile cards after the stock cards. */
    method LoadTableau(data: seq<int>, ghost b: Board)
      requires Shape() && |data| == StateSize && AllBytes(data) && LayoutFits(data) && b == DecodeBoard(data)
      requires stockCount == data[StockCountAt] && forall p :: 0 <= p < TableauPiles ==> |b.piles[p]| <= PileCapacity
      modifies tableau, hiddenCount, tableauCount
      ensures Shape() && Rows() == b.piles && hiddenCount[..] == b.hidden
    {
      var k := BodyAt + stockCount;
      var i := 0;
      while i < TableauPiles
        invariant Shape() && 0 <= i <= TableauPiles && k == BodyAt + stockCount + Offset(data[CountAt..HiddenAt], i)
        invariant forall p :: 0 <= p < i ==> hiddenCount[p] == b.hidden[p] && Rows()[p] == b.piles[p]
      {
        k := LoadPile(data, b, i, k);
        i := i + 1;
      }
      assert Rows() == b.piles;
    }

    /** Pile `i`: its count, its hidden count and its cards from offset `k` on. */
    method LoadPile(data: seq<int>, ghost b: Board, i: int, k: int) returns (next: int)
      requires Shape() && |data| == StateSize && AllBytes(data) && LayoutFits(data) && b == DecodeBoard(data)
      requires 0 <= i < TableauPiles && |b.piles[i]| <= PileCapacity
      requires k == BodyAt + stockCount + Offset(data[CountAt..HiddenAt], i) && stockCount == data[StockCountAt]
      modifies tableau, hiddenCount, tableauCount
      ensures Shape() && next == BodyAt + stockCount + Offset(data[CountAt..HiddenAt], i + 1)
      ensures Rows() == old(Rows())[i := b.piles[i]]
      ensures hiddenCount[..] == old(hiddenCount[..])[i := b.hidden[i]]
    {
      OffsetMono(data[CountAt..HiddenAt], i + 1, TableauPiles);
      assert b.piles[i] == data[k..k + data[CountAt + i]];
      hiddenCount[i] := data[HiddenAt + i];
      next := LoadRow(data, i, k);
    }

    /** The count of pile `i` and its cards, bytes `k ..` in order. */
    method LoadRow(data: seq<int>, i: int, k: int) returns (next: int)
      requires TableauShape() && 0 <= i < TableauPiles && 0 <= k
      requires |data| == StateSize && 0 <= data[CountAt + i] <= PileCapacity && k + data[CountAt + i] <= |data|
      modifies tableau, tableauCount
      ensures TableauShape() && next == k + data[CountAt + i]
      ensures Rows() == old(Rows())[i := data[k..next]]
    {
      ghost var rows := Rows();
      tableauCount[i] := data[CountAt + i];
      next := FillFromBytes(data, i, k);
      assert Rows()[i] == data[k..next];
      forall p | 0 <= p < TableauPiles && p != i ensures Rows()[p] == rows[p] {
      }
    }

    /** The card loop of load_state for pile `i`: bytes `k ..` in order, as many as its count. */
    method FillFromBytes(data: seq<int>, i: int, k: int) returns (next: int)
      requires TableauShape() && 0 <= i < TableauPiles && 0 <= k && k + tableauCount[i] <= |data|
      modifies tableau
      ensures next == k + tableauCount[i]
      ensures forall q :: 0 <= q < tableauCount[i] ==> tableau[i, q] == data[k + q]
      ensures forall p, q :: 0 <= p < TableauPiles && p != i && 0 <= q < PileCapacity ==> tableau[p, q] == old(tableau[p, q])
    {
      next := k;
      var j := 0;
      while j < tableauCount[i]
        invariant 0 <= j <= tableauCount[i] && next == k + j
        invariant forall q :: 0 <= q < j ==> tableau[i, q] == data[k + q]
        invariant forall p, q :: 0 <= p < TableauPiles && p != i && 0 <= q < PileCapacity ==> tableau[p, q] == old(tableau[p, q])
      {
        tableau[i, j] := data[next];
        j, next := j + 1, next + 1;
      }
    }

    // -------------------------------------------------------------------
    // The settings and tools menus

    /**
     * The draw setting: draw-one and draw-three swap places.  Switching to
     * draw-three shows up to three cards from the talon on, at least one;
     * switching to draw-one closes the window.
     */
    method ToggleDraw()
      requires Valid()
      modifies this`drawSetting, this`talonShowing
      ensures Valid() && drawSetting == (if old(drawSetting) == 0 then 1 else 0)
      ensures Abs() == ToggleDrawBoard(old(Abs()), old(drawSetting) != 0)
    {
      Commands.ToggleDrawKeepsPlay(Now(), drawSetting != 0);
      ToggleWindow();
      ValidFromPlay();
    }

    /** The assignments of the draw setting, on the whole play. */
    method ToggleWindow()
      requires Shape()
      modifies this`drawSetting, this`talonShowing
      ensures Shape() && drawSetting == (if old(drawSetting) == 0 then 1 else 0)
      ensures Now() == Commands.ToggleDraw(old(Now()), old(drawSetting) != 0)
    {
      if drawSetting == 0 {
        drawSetting := 1;
        talonShowing := stockCount - talon - 1;
        if talonShowing > MaxShowing {
          talonShowing := MaxShowing;
        }
        if talonShowing < 0 {
          talonShowing := 0;
        }
      } else {
        drawSetting := 0;
        talonShowing := 0;
      }
    }

    /** The flips setting: no limit, zero, one, three, and round again. */
    method CycleFlipLimit()
      requires Valid()
      modifies this`flipLimitSetting
      ensures Valid() && flipLimitSetting == (old(flipLimitSetting) + 1) % 4 && 0 <= flipLimitSetting < 4
    {
      flipLimitSetting := (flipLimitSetting + 1) % 4;
    }

    /** The score setting: shown, hidden, and round again. */
    method CycleScoreVisibility()
      requires Valid()
      modifies this`scoreSetting
      ensures Valid() && scoreSetting == (old(scoreSetting) + 1) % 2 && 0 <= scoreSetting < 2
    {
      scoreSetting := (scoreSetting + 1) % 2;
    }

    /** Reset score in the tools menu: the score goes back to 0, nothing else changes. */
    method ResetScore()
      requires Valid()
      modifies this`score
      ensures Valid() && score == 0
    {
      score := 0;
    }
}
}
