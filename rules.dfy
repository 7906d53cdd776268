/**
 * The rules of the Klondike engine, stated on a value view of the board.
 *
 * `Board` holds what the engine's move logic reads and writes: the live
 * part of the stock with the talon window, the four foundation tops and
 * the seven tableau piles with their face-down counts.  The legality
 * predicates and the transitions here are the specification that the
 * imperative `Klondike.Game` methods are proved against; the lemmas state
 * what the rules promise about them.
 */
module Rules {
  import opened Cards

  const TableauPiles: int := 7
  /** Pile identifiers: 0..6 are the tableau piles, 7 the talon, 8 the foundations as a group. */
  const TalonPile: int := 7
  const FoundationsPile: int := 8
  const FoundationSlots: int := 4
  const StockCapacity: int := 24
  const PileCapacity: int := 19
  /** Pile 6 is dealt with six face-down cards and no pile ever gains one. */
  const MaxHidden: int := 6
  /** The talon window shows at most three cards: `talon .. talon + talonShowing`. */
  const MaxShowing: int := 2

  datatype Board = Board(
    stock: seq<int>,         // stock[0 .. stock_count)
    talon: int,              // first card of the talon window
    talonShowing: int,       // further face-up cards in the window
    foundation: seq<int>,    // top card of each foundation, or NoCard
    piles: seq<seq<int>>,    // tableau[p][0 .. tableau_count[p]), bottom card first
    hidden: seq<int>)        // hidden_count[p]: face-down cards at the bottom of pile p

  /** `card` may be put on `onto` in the tableau: one rank lower, other colour. */
  predicate Fits(card: int, onto: int)
    requires 0 <= card && 0 <= onto
  {
    Rank(card) == Rank(onto) - 1 && Colour(Suit(card)) != Colour(Suit(onto))
  }

  /** A face-up run: cards, each one fitting on the card beneath it. */
  predicate IsRun(s: seq<int>) {
    (forall i :: 0 <= i < |s| ==> IsCard(s[i])) &&
    (forall i :: 0 < i < |s| ==> Fits(s[i], s[i - 1]))
  }

  /** A tableau pile: cards, at most six face down, the top card face up, the face-up cards a run. */
  predicate PileOk(pile: seq<int>, h: int) {
    0 <= h <= MaxHidden && h <= |pile| && (|pile| > 0 ==> h < |pile|) &&
    (forall i :: 0 <= i < |pile| ==> IsCard(pile[i])) &&
    IsRun(pile[h..])
  }

  predicate FoundationsOk(f: seq<int>) {
    forall i :: 0 <= i < |f| ==> f[i] == NoCard || IsCard(f[i])
  }

  predicate Shaped(b: Board) {
    |b.stock| <= StockCapacity && |b.foundation| == FoundationSlots &&
    |b.piles| == TableauPiles && |b.hidden| == TableauPiles
  }

  /**
   * The talon window lies inside the stock, except after the card at
   * `talon == 0` was played in draw-three mode: the window is then left as
   * it was and may reach past the end of the stock.
   */
  predicate WindowOk(b: Board) {
    0 <= b.talon && 0 <= b.talonShowing <= MaxShowing &&
    (b.talon + b.talonShowing < |b.stock| || b.talon == 0)
  }

  predicate Inv(b: Board) {
    Shaped(b) && WindowOk(b) &&
    (forall i :: 0 <= i < |b.stock| ==> IsCard(b.stock[i])) &&
    FoundationsOk(b.foundation) &&
    (forall p :: 0 <= p < TableauPiles ==> PileOk(b.piles[p], b.hidden[p]))
  }

  // ---------------------------------------------------------------------
  // Runs and the capacity of a pile

  lemma {:induction false} RunRanks(s: seq<int>, i: int)
    requires IsRun(s) && 0 <= i < |s|
    ensures Rank(s[i]) == Rank(s[0]) - i
  {
    if i > 0 {
      RunRanks(s, i - 1);
      assert Fits(s[i], s[i - 1]);
    }
  }

  /** A run descends one rank per card from at most a King, so it holds at most 13 cards. */
  lemma RunLength(s: seq<int>)
    requires IsRun(s)
    ensures |s| <= King + 1
  {
    if |s| > 0 {
      RunRanks(s, |s| - 1);
    }
  }

  /** Six face-down cards under a run of at most 13: a pile never outgrows `tableau[p][19]`. */
  lemma PileWithinCapacity(pile: seq<int>, h: int)
    requires PileOk(pile, h)
    ensures |pile| <= PileCapacity
  {
    RunLength(pile[h..]);
  }

  /** Putting a run on a pile whose top it fits (or a run headed by a King on an empty pile) keeps a pile. */
  lemma AppendRunKeepsPile(pile: seq<int>, h: int, run: seq<int>)
    requires PileOk(pile, h) && IsRun(run) && |run| > 0
    requires |pile| > 0 ==> Fits(run[0], pile[|pile| - 1])
    ensures PileOk(pile + run, h)
  {
    var s := pile + run;
    assert s[h..] == pile[h..] + run;
    forall i | 0 < i < |s[h..]| ensures Fits(s[h..][i], s[h..][i - 1]) {
      if i == |pile| - h {
        assert s[h..][i] == run[0] && s[h..][i - 1] == pile[|pile| - 1];
      }
    }
  }

  // ---------------------------------------------------------------------
  // Queries (get_source_card, tableau_rules_met, can_move_*)

  /** The card a move from pile `src` would take: the top of a tableau pile, or the card at the end of the talon window. */
  function SourceCard(b: Board, src: int): (c: int)
    requires Inv(b)
    ensures c == NoCard || IsCard(c)
    ensures c != NoCard <==>
      (0 <= src < TableauPiles && |b.piles[src]| > 0) || (src == TalonPile && b.talonShowing < |b.stock|)
  {
    if src < 0 || src >= FoundationsPile then NoCard
    else if src == TalonPile then
      if |b.stock| < b.talonShowing + 1 then NoCard else b.stock[b.talon + b.talonShowing]
    else if |b.piles[src]| == 0 then NoCard
    else b.piles[src][|b.piles[src]| - 1]
  }

  /** Whether a card of this rank and suit may land on tableau pile `dest`. */
  predicate RulesMet(b: Board, dest: int, rank: int, suit: int, kingOnEmpty: bool)
    requires Inv(b) && 0 <= dest < TableauPiles && 0 <= suit < 4
  {
    var pile := b.piles[dest];
    if |pile| > 0 then
      var top := pile[|pile| - 1];
      rank == Rank(top) - 1 && Colour(suit) != Colour(Suit(top))
    else
      rank == King && kingOnEmpty
  }

  /** More than one face-up card on tableau pile `p`. */
  predicate MultipleShowing(b: Board, p: int)
    requires Shaped(b) && 0 <= p < TableauPiles
  {
    |b.piles[p]| > 0 && |b.piles[p]| != b.hidden[p] + 1
  }

  predicate CanMoveSingle(b: Board, src: int, dest: int)
    requires Inv(b) && 0 <= dest < TableauPiles
  {
    dest != src && SourceCard(b, src) != NoCard &&
    var c := SourceCard(b, src);
    RulesMet(b, dest, Rank(c), Suit(c), true)
  }

  /** Moving all face-up cards of tableau pile `src`; onto an empty pile only if they covered face-down cards. */
  predicate CanMovePile(b: Board, src: int, dest: int)
    requires Inv(b) && 0 <= src && 0 <= dest < TableauPiles
  {
    dest != src && src < TableauPiles && MultipleShowing(b, src) &&
    var c := b.piles[src][b.hidden[src]];
    RulesMet(b, dest, Rank(c), Suit(c), b.hidden[src] > 0)
  }

  predicate CanMoveToTableau(b: Board, src: int, dest: int)
    requires Inv(b) && 0 <= src && 0 <= dest < TableauPiles
  {
    CanMoveSingle(b, src, dest) || CanMovePile(b, src, dest)
  }

  /** A foundation with top `top` accepts `card`: an Ace when empty, else the next rank of the same suit. */
  predicate Accepts(top: int, card: int)
    requires top == NoCard || 0 <= top
    requires 0 <= card
  {
    if top == NoCard then Rank(card) == Ace
    else Suit(card) == Suit(top) && Rank(card) == Rank(top) + 1
  }

  /** The scan of can_move_to_foundations from slot `i` on. */
  function FirstAccepting(f: seq<int>, card: int, i: int): (r: int)
    requires FoundationsOk(f) && 0 <= card && 0 <= i <= |f|
    ensures i <= r <= |f|
    decreases |f| - i
  {
    if i == |f| then |f|
    else if Accepts(f[i], card) then i
    else FirstAccepting(f, card, i + 1)
  }

  /** can_move_to_foundations: the slot the source card would go to, or 4. */
  function FoundationSlot(b: Board, src: int): (r: int)
    requires Inv(b)
    ensures 0 <= r <= FoundationSlots
  {
    var c := SourceCard(b, src);
    if c == NoCard then FoundationSlots else FirstAccepting(b.foundation, c, 0)
  }

  lemma {:induction false} FirstAcceptingIsFirst(f: seq<int>, card: int, i: int)
    requires FoundationsOk(f) && 0 <= card && 0 <= i <= |f|
    ensures FirstAccepting(f, card, i) < |f| ==> Accepts(f[FirstAccepting(f, card, i)], card)
    ensures forall j :: i <= j < FirstAccepting(f, card, i) ==> !Accepts(f[j], card)
    decreases |f| - i
  {
    if i < |f| && !Accepts(f[i], card) {
      FirstAcceptingIsFirst(f, card, i + 1);
    }
  }

  /**
   * The slot is 4 when there is no source card; otherwise it is the first
   * slot that accepts the card, and 4 exactly when none does.
   */
  lemma FoundationSlotSpec(b: Board, src: int)
    requires Inv(b)
    ensures SourceCard(b, src) == NoCard ==> FoundationSlot(b, src) == FoundationSlots
    ensures FoundationSlot(b, src) < FoundationSlots ==>
      SourceCard(b, src) != NoCard && Accepts(b.foundation[FoundationSlot(b, src)], SourceCard(b, src))
    ensures SourceCard(b, src) != NoCard ==>
      forall j :: 0 <= j < FoundationSlot(b, src) ==> !Accepts(b.foundation[j], SourceCard(b, src))
  {
    var c := SourceCard(b, src);
    if c != NoCard {
      FirstAcceptingIsFirst(b.foundation, c, 0);
    }
  }

  /** A King is never legal on a non-empty tableau pile, whatever `kingOnEmpty` says. */
  lemma KingNeverOnNonEmpty(b: Board, dest: int, suit: int, kingOnEmpty: bool)
    requires Inv(b) && 0 <= dest < TableauPiles && 0 <= suit < 4 && |b.piles[dest]| > 0
    ensures !RulesMet(b, dest, King, suit, kingOnEmpty)
  {
    var pile := b.piles[dest];
    assert PileOk(pile, b.hidden[dest]);
    assert IsCard(pile[|pile| - 1]);
  }

  /**
   * On a pile the single-card move and the whole-run move are never both
   * legal: the top card of a run of two or more is lower than its bottom.
   */
  lemma SingleAndPileExclusive(b: Board, src: int, dest: int)
    requires Inv(b) && 0 <= src && 0 <= dest < TableauPiles
    ensures !(CanMoveSingle(b, src, dest) && CanMovePile(b, src, dest))
  {
    if CanMovePile(b, src, dest) {
      var pile, h := b.piles[src], b.hidden[src];
      assert PileOk(pile, h);
      var run := pile[h..];
      RunRanks(run, |run| - 1);
      assert run[|run| - 1] == SourceCard(b, src) && run[0] == pile[h];
      assert Rank(SourceCard(b, src)) < Rank(pile[h]) <= King;
    }
  }

  // ---------------------------------------------------------------------
  // The cards on the board, for conservation

  /** The tableau cards pile by pile, pile 0 first (the order of the saved layout). */
  function Flatten(piles: seq<seq<int>>): (s: seq<int>)
    ensures |piles| == 0 ==> s == []
  {
    if piles == [] then [] else Flatten(piles[..|piles| - 1]) + piles[|piles| - 1]
  }

  /** Replacing pile `i` by `x` exchanges the cards of pile `i` for those of `x`. */
  lemma {:induction false} FlattenUpdate(piles: seq<seq<int>>, i: int, x: seq<int>)
    requires 0 <= i < |piles|
    ensures multiset(Flatten(piles[i := x])) + multiset(piles[i]) == multiset(Flatten(piles)) + multiset(x)
  {
    var n := |piles| - 1;
    var q := piles[i := x];
    if i < n {
      var rest, rest' := Flatten(piles[..n]), Flatten(piles[..n][i := x]);
      assert q[..n] == piles[..n][i := x];
      assert Flatten(q) == rest' + piles[n];
      assert Flatten(piles) == rest + piles[n];
      FlattenUpdate(piles[..n], i, x);
      assert multiset(rest') + multiset(piles[i]) == multiset(rest) + multiset(x);
      calc {
        multiset(Flatten(q)) + multiset(piles[i]);
        multiset(rest') + multiset(piles[n]) + multiset(piles[i]);
        multiset(rest) + multiset(x) + multiset(piles[n]);
        multiset(Flatten(piles)) + multiset(x);
      }
    } else {
      assert q[..n] == piles[..n];
      assert Flatten(q) == Flatten(piles[..n]) + x;
    }
  }

  /** Every card in the stock and the tableau, with multiplicity. */
  function BoardCards(b: Board): multiset<int> {
    multiset(b.stock) + multiset(Flatten(b.piles))
  }

  // ---------------------------------------------------------------------
  // Transitions (remove_source_card, move_to_tableau, move_to_foundation)

  /** tableau_flip_top_card: turn the top card face up when only face-down cards remain. */
  function Flip(h: int, count: int): (r: int)
    ensures count == h && h > 0 ==> r == h - 1
    ensures count != h || h <= 0 ==> r == h
  {
    if h > 0 && count == h then h - 1 else h
  }

  /** remove_source_card: take the source card off its pile. */
  function RemoveCard(b: Board, src: int): (r: Board)
    requires Inv(b) && SourceCard(b, src) != NoCard
  {
    if src == TalonPile then
      var k := b.talon + b.talonShowing;
      b.(stock := b.stock[..k] + b.stock[k + 1..],
         talon := if b.talon > 0 && b.talonShowing == 0 then b.talon - 1 else b.talon,
         talonShowing := if b.talon > 0 && b.talonShowing > 0 then b.talonShowing - 1 else b.talonShowing)
    else
      var n := |b.piles[src]| - 1;
      b.(piles := b.piles[src := b.piles[src][..n]], hidden := b.hidden[src := Flip(b.hidden[src], n)])
  }

  lemma RemoveCardKeepsInv(b: Board, src: int)
    requires Inv(b) && SourceCard(b, src) != NoCard
    ensures Inv(RemoveCard(b, src))
    ensures RemoveCard(b, src).foundation == b.foundation
  {
    var r := RemoveCard(b, src);
    if src != TalonPile {
      var pile, h := b.piles[src], b.hidden[src];
      assert PileOk(pile, h);
      var n := |pile| - 1;
      var h' := Flip(h, n);
      if h' == h {
        assert pile[..n][h..] == pile[h..][..n - h];
      } else {
        assert |pile[..n][h'..]| == 1;
      }
      assert PileOk(pile[..n], h');
      forall p | 0 <= p < TableauPiles ensures PileOk(r.piles[p], r.hidden[p]) {
        if p != src {
          assert r.piles[p] == b.piles[p] && r.hidden[p] == b.hidden[p];
        }
      }
    } else {
      var k := b.talon + b.talonShowing;
      assert forall i :: 0 <= i < |r.stock| ==> r.stock[i] == (if i < k then b.stock[i] else b.stock[i + 1]);
    }
  }

  /** The source card is what leaves the stock and the tableau; nothing else does. */
  lemma RemoveCardConserves(b: Board, src: int)
    requires Inv(b) && SourceCard(b, src) != NoCard
    ensures BoardCards(RemoveCard(b, src)) + multiset{SourceCard(b, src)} == BoardCards(b)
  {
    if src == TalonPile {
      TalonRemovalConserves(b);
    } else {
      PileRemovalConserves(b, src);
    }
  }

  lemma TalonRemovalConserves(b: Board)
    requires Inv(b) && b.talonShowing < |b.stock|
    ensures BoardCards(RemoveCard(b, TalonPile)) + multiset{SourceCard(b, TalonPile)} == BoardCards(b)
  {
    var r := RemoveCard(b, TalonPile);
    TakeOut(b.stock, b.talon + b.talonShowing);
    assert multiset(r.stock) + multiset{SourceCard(b, TalonPile)} == multiset(b.stock);
  }

  lemma PileRemovalConserves(b: Board, src: int)
    requires Inv(b) && 0 <= src < TableauPiles && |b.piles[src]| > 0
    ensures BoardCards(RemoveCard(b, src)) + multiset{SourceCard(b, src)} == BoardCards(b)
  {
    var r := RemoveCard(b, src);
    TakeTop(b.piles, src);
    assert multiset(Flatten(r.piles)) + multiset{SourceCard(b, src)} == multiset(Flatten(b.piles));
  }

  lemma TakeOut(s: seq<int>, k: int)
    requires 0 <= k < |s|
    ensures multiset(s[..k] + s[k + 1..]) + multiset{s[k]} == multiset(s)
  {
    assert s == s[..k] + [s[k]] + s[k + 1..];
  }

  lemma TakeTop(piles: seq<seq<int>>, p: int)
    requires 0 <= p < |piles| && |piles[p]| > 0
    ensures var n := |piles[p]| - 1;
      multiset(Flatten(piles[p := piles[p][..n]])) + multiset{piles[p][n]} == multiset(Flatten(piles))
  {
    var n := |piles[p]| - 1;
    var rest, top := piles[p][..n], piles[p][n];
    FlattenUpdate(piles, p, rest);
    SplitTop(piles[p]);
    CancelTop(multiset(Flatten(piles[p := rest])), multiset(Flatten(piles)), multiset(piles[p]), multiset(rest), top);
  }

  lemma SplitTop(s: seq<int>)
    requires |s| > 0
    ensures multiset(s) == multiset(s[..|s| - 1]) + multiset{s[|s| - 1]}
  {
    assert s == s[..|s| - 1] + [s[|s| - 1]];
  }

  lemma CancelTop(after: multiset<int>, before: multiset<int>, whole: multiset<int>, rest: multiset<int>, top: int)
    requires whole == rest + multiset{top} && after + whole == before + rest
    ensures after + multiset{top} == before
  {
    assert (after + multiset{top}) + rest == before + rest;
    Cancel(after + multiset{top}, before, rest);
  }

  /** Put `cards` on top of tableau pile `dest`. */
  function Append(b: Board, dest: int, cards: seq<int>): Board
    requires Shaped(b) && 0 <= dest < TableauPiles
  {
    b.(piles := b.piles[dest := b.piles[dest] + cards])
  }

  /**
   * move_to_tableau from pile `src` to tableau pile `dest`: the single
   * source card if that is legal, otherwise the whole face-up run of a
   * tableau pile if that is legal, otherwise nothing.
   */
  function MoveToTableau(b: Board, src: int, dest: int): (r: Board)
    requires Inv(b) && 0 <= src && 0 <= dest < TableauPiles
  {
    if CanMoveSingle(b, src, dest) then
      RemoveCardKeepsInv(b, src);
      Append(RemoveCard(b, src), dest, [SourceCard(b, src)])
    else if CanMovePile(b, src, dest) then
      MoveRun(b, src, dest)
    else
      b
  }

  /** The run move: the face-up cards of `src` onto `dest`, then the new top of `src` turned up. */
  function MoveRun(b: Board, src: int, dest: int): Board
    requires Shaped(b) && 0 <= src < TableauPiles && 0 <= dest < TableauPiles
    requires 0 <= b.hidden[src] <= |b.piles[src]|
  {
    var h := b.hidden[src];
    var moved := Append(b, dest, b.piles[src][h..]);
    moved.(piles := moved.piles[src := b.piles[src][..h]], hidden := b.hidden[src := Flip(h, h)])
  }

  lemma MoveToTableauKeepsInv(b: Board, src: int, dest: int)
    requires Inv(b) && 0 <= src && 0 <= dest < TableauPiles
    ensures Inv(MoveToTableau(b, src, dest))
    ensures MoveToTableau(b, src, dest).foundation == b.foundation
  {
    var r := MoveToTableau(b, src, dest);
    if CanMoveSingle(b, src, dest) {
      var c := SourceCard(b, src);
      RemoveCardKeepsInv(b, src);
      var b1 := RemoveCard(b, src);
      assert b1.piles[dest] == b.piles[dest] && b1.hidden[dest] == b.hidden[dest];
      var pile := b.piles[dest];
      assert PileOk(pile, b.hidden[dest]);
      if |pile| == 0 {
        assert b.hidden[dest] == 0;
      }
      AppendRunKeepsPile(pile, b.hidden[dest], [c]);
      forall p | 0 <= p < TableauPiles ensures PileOk(r.piles[p], r.hidden[p]) {
        if p != dest {
          assert r.piles[p] == b1.piles[p] && r.hidden[p] == b1.hidden[p];
        }
      }
    } else if CanMovePile(b, src, dest) {
      var h := b.hidden[src];
      var pile := b.piles[src];
      assert PileOk(pile, h);
      var run := pile[h..];
      var d := b.piles[dest];
      assert PileOk(d, b.hidden[dest]);
      if |d| == 0 {
        assert b.hidden[dest] == 0;
      }
      AppendRunKeepsPile(d, b.hidden[dest], run);
      assert PileOk(pile[..h], Flip(h, h)) by {
        if h > 0 {
          assert IsCard(pile[h - 1]);
          assert pile[..h][h - 1..] == [pile[h - 1]];
          assert IsRun([pile[h - 1]]);
        } else {
          assert pile[..h] == [];
        }
      }
      forall p | 0 <= p < TableauPiles ensures PileOk(r.piles[p], r.hidden[p]) {
        if p != dest && p != src {
          assert r.piles[p] == b.piles[p] && r.hidden[p] == b.hidden[p];
        }
      }
    }
  }

  /** A tableau move only moves cards around: the stock and the tableau hold the same cards after it. */
  lemma MoveToTableauConserves(b: Board, src: int, dest: int)
    requires Inv(b) && 0 <= src && 0 <= dest < TableauPiles
    ensures BoardCards(MoveToTableau(b, src, dest)) == BoardCards(b)
  {
    if CanMoveSingle(b, src, dest) {
      SingleMoveConserves(b, src, dest);
    } else if CanMovePile(b, src, dest) {
      assert PileOk(b.piles[src], b.hidden[src]);
      PileMoveConserves(b, src, dest);
    }
  }

  /** A tableau move keeps the number of cards on the board, and a closed talon window stays closed. */
  lemma MoveToTableauCount(b: Board, src: int, dest: int)
    requires Inv(b) && 0 <= src && 0 <= dest < TableauPiles
    ensures var r := MoveToTableau(b, src, dest);
      |r.stock| + TableauSize(r) == |b.stock| + TableauSize(b) && (b.talonShowing == 0 ==> r.talonShowing == 0)
  {
    MoveToTableauConserves(b, src, dest);
    CardCount(b);
    CardCount(MoveToTableau(b, src, dest));
  }

  lemma SingleMoveConserves(b: Board, src: int, dest: int)
    requires Inv(b) && 0 <= src && 0 <= dest < TableauPiles && CanMoveSingle(b, src, dest)
    ensures BoardCards(MoveToTableau(b, src, dest)) == BoardCards(b)
  {
    var c := SourceCard(b, src);
    RemoveCardConserves(b, src);
    RemoveCardKeepsInv(b, src);
    var b1 := RemoveCard(b, src);
    PutOn(b1.piles, dest, [c]);
  }

  lemma Cancel(a: multiset<int>, b: multiset<int>, c: multiset<int>)
    requires a + c == b + c
    ensures a == b
  {
    forall x ensures a[x] == b[x] {
      assert (a + c)[x] == (b + c)[x];
    }
  }

  /** Putting `cards` on pile `p` adds exactly those cards. */
  lemma PutOn(piles: seq<seq<int>>, p: int, cards: seq<int>)
    requires 0 <= p < |piles|
    ensures multiset(Flatten(piles[p := piles[p] + cards])) == multiset(Flatten(piles)) + multiset(cards)
  {
    var x := piles[p] + cards;
    FlattenUpdate(piles, p, x);
    var before, after := multiset(Flatten(piles)), multiset(Flatten(piles[p := x]));
    var mp, mc := multiset(piles[p]), multiset(cards);
    assert multiset(x) == mp + mc;
    assert after + mp == (before + mc) + mp;
    Cancel(after, before + mc, mp);
  }

  lemma PileMoveConserves(b: Board, src: int, dest: int)
    requires Shaped(b) && 0 <= src < TableauPiles && 0 <= dest < TableauPiles && src != dest
    requires 0 <= b.hidden[src] <= |b.piles[src]|
    ensures BoardCards(MoveRun(b, src, dest)) == BoardCards(b)
  {
    var h := b.hidden[src];
    var pile := b.piles[src];
    var run := pile[h..];
    var q1 := b.piles[dest := b.piles[dest] + run];
    assert MoveRun(b, src, dest).piles == q1[src := pile[..h]];
    PutOn(b.piles, dest, run);
    assert q1[src] == pile;
    FlattenUpdate(q1, src, pile[..h]);
    var m0, m1, m2 := multiset(Flatten(b.piles)), multiset(Flatten(q1)), multiset(Flatten(q1[src := pile[..h]]));
    var mp, mh, mr := multiset(pile), multiset(pile[..h]), multiset(run);
    assert mp == mh + mr by {
      assert pile == pile[..h] + run;
    }
    assert m2 + mp == m1 + mh;
    assert m1 == m0 + mr;
    assert m2 + mp == m0 + mp;
    Cancel(m2, m0, mp);
  }

  /** move_to_foundation: put the source card on the slot FoundationSlot picks, if any. */
  function MoveToFoundation(b: Board, src: int): (r: Board)
    requires Inv(b)
  {
    var i := FoundationSlot(b, src);
    if i < FoundationSlots then
      RemoveCard(b, src).(foundation := b.foundation[i := SourceCard(b, src)])
    else
      b
  }

  /** A foundation move takes one card off the board when it moves one, and a closed talon window stays closed. */
  lemma MoveToFoundationCount(b: Board, src: int)
    requires Inv(b)
    ensures var r := MoveToFoundation(b, src);
      |r.stock| + TableauSize(r) + (if FoundationSlot(b, src) < FoundationSlots then 1 else 0) == |b.stock| + TableauSize(b) &&
      (b.talonShowing == 0 ==> r.talonShowing == 0)
  {
    if FoundationSlot(b, src) < FoundationSlots {
      MoveToFoundationEffect(b, src);
      CardCount(b);
      CardCount(MoveToFoundation(b, src));
    }
  }

  /** All four foundations are topped by a King. */
  predicate AllKings(f: seq<int>)
    requires |f| == FoundationSlots
  {
    forall i :: 0 <= i < FoundationSlots ==> f[i] >= FirstKing
  }

  /** Once every foundation is topped by a King no card can go to a foundation. */
  lemma KingsAcceptNothing(b: Board, src: int)
    requires Inv(b) && AllKings(b.foundation)
    ensures FoundationSlot(b, src) == FoundationSlots
  {
    var c := SourceCard(b, src);
    if c != NoCard {
      FirstAcceptingIsFirst(b.foundation, c, 0);
    }
  }

  lemma MoveToFoundationKeepsInv(b: Board, src: int)
    requires Inv(b)
    ensures Inv(MoveToFoundation(b, src))
  {
    if FoundationSlot(b, src) < FoundationSlots {
      RemoveCardKeepsInv(b, src);
    }
  }

  /**
   * A foundation move puts the source card on exactly the chosen slot,
   * which then holds the next card of its suit (higher than before); the
   * card leaves the stock and tableau; the other slots keep their cards.
   */
  lemma MoveToFoundationEffect(b: Board, src: int)
    requires Inv(b) && FoundationSlot(b, src) < FoundationSlots
    ensures var i := FoundationSlot(b, src);
      var r := MoveToFoundation(b, src);
      r.foundation[i] == SourceCard(b, src) &&
      r.foundation[i] > b.foundation[i] &&
      (forall j :: 0 <= j < FoundationSlots && j != i ==> r.foundation[j] == b.foundation[j]) &&
      BoardCards(r) + multiset{r.foundation[i]} == BoardCards(b)
  {
    var i := FoundationSlot(b, src);
    FoundationSlotSpec(b, src);
    RemoveCardConserves(b, src);
    var c := SourceCard(b, src);
    var top := b.foundation[i];
    if top != NoCard {
      assert c == 4 * Rank(c) + Suit(c) && top == 4 * Rank(top) + Suit(top);
    }
  }

  /** Foundations only grow: no foundation move lowers any foundation's top. */
  lemma FoundationMonotone(b: Board, src: int)
    requires Inv(b)
    ensures forall j :: 0 <= j < FoundationSlots ==> MoveToFoundation(b, src).foundation[j] >= b.foundation[j]
  {
    if FoundationSlot(b, src) < FoundationSlots {
      MoveToFoundationEffect(b, src);
    }
  }

  // ---------------------------------------------------------------------
  // Auto-sweep (automatically_move_to_foundations)

  /** The number of cards in the tableau. */
  function TableauSize(b: Board): nat {
    |Flatten(b.piles)|
  }

  /** The stock and the tableau hold at most one deck's worth of cards. */
  predicate WithinDeck(b: Board) {
    |b.stock| + TableauSize(b) <= DeckSize
  }

  /** Foundation tops of `r` are at least those of `b`. */
  predicate FoundationsGrew(b: Board, r: Board)
    requires |b.foundation| == FoundationSlots && |r.foundation| == FoundationSlots
  {
    forall j :: 0 <= j < FoundationSlots ==> r.foundation[j] >= b.foundation[j]
  }

  lemma MultisetSubsetTrans(x: multiset<int>, y: multiset<int>, z: multiset<int>)
    requires x <= y && y <= z
    ensures x <= z
  {
  }

  /** A foundation move from a tableau pile takes exactly one tableau card and leaves the stock and talon alone. */
  lemma TableauToFoundation(b: Board, i: int)
    requires Inv(b) && 0 <= i < TableauPiles && FoundationSlot(b, i) < FoundationSlots
    ensures var r := MoveToFoundation(b, i);
      Inv(r) && r.stock == b.stock && r.talon == b.talon && r.talonShowing == b.talonShowing &&
      TableauSize(r) + 1 == TableauSize(b) && BoardCards(r) <= BoardCards(b) && FoundationsGrew(b, r)
  {
    var r := MoveToFoundation(b, i);
    MoveToFoundationKeepsInv(b, i);
    MoveToFoundationEffect(b, i);
    FoundationMonotone(b, i);
    var c := r.foundation[FoundationSlot(b, i)];
    assert r.stock == b.stock;
    CancelOne(multiset(b.stock), multiset(Flatten(r.piles)), multiset(Flatten(b.piles)), c);
  }

  lemma CancelOne(s: multiset<int>, x: multiset<int>, y: multiset<int>, c: int)
    requires s + x + multiset{c} == s + y
    ensures x <= y && |x| + 1 == |y|
  {
    forall e ensures (x + multiset{c})[e] == y[e] {
      assert (s + x + multiset{c})[e] == (s + y)[e];
    }
    assert x + multiset{c} == y;
  }

  datatype Swept = Swept(board: Board, moved: bool, source: int)

  /**
   * Pile `i`'s turn in a pass: a non-empty pile becomes the source and
   * gives its top card to a foundation if one accepts it.
   */
  function Offer(b: Board, i: int, src: int): (r: Swept)
    requires Inv(b) && 0 <= i < TableauPiles
    ensures Inv(r.board)
    ensures r.source == src || r.source == i
  {
    MoveToFoundationKeepsInv(b, i);
    if |b.piles[i]| == 0 then Swept(b, false, src)
    else Swept(MoveToFoundation(b, i), FoundationSlot(b, i) < FoundationSlots, i)
  }

  /**
   * A turn that moves takes exactly one tableau card and cannot happen
   * once all foundations are topped by Kings; one that does not move
   * leaves the board as it was.
   */
  lemma OfferSpec(b: Board, i: int, src: int)
    requires Inv(b) && 0 <= i < TableauPiles
    ensures var r := Offer(b, i, src);
      (r.moved ==> TableauSize(r.board) + 1 == TableauSize(b) && !AllKings(b.foundation)) &&
      (!r.moved ==> r.board == b)
  {
    if Offer(b, i, src).moved {
      TableauToFoundation(b, i);
      if AllKings(b.foundation) {
        KingsAcceptNothing(b, i);
      }
    }
  }

  /** The first `i` turns of a pass that starts on board `b` with source `src`. */
  function PassUpTo(b: Board, src: int, i: int): (r: Swept)
    requires Inv(b) && 0 <= i <= TableauPiles
    ensures Inv(r.board)
    ensures r.source == src || 0 <= r.source < TableauPiles
  {
    if i == 0 then Swept(b, false, src)
    else
      var p := PassUpTo(b, src, i - 1);
      var o := Offer(p.board, i - 1, p.source);
      Swept(o.board, p.moved || o.moved, o.source)
  }

  /** Pile `i`'s turn extends the first `i` turns of a pass. */
  lemma PassUpToStep(b: Board, src: int, i: int, p: Swept, o: Swept)
    requires Inv(b) && 0 <= i < TableauPiles && p == PassUpTo(b, src, i)
    requires o == Offer(p.board, i, p.source)
    ensures PassUpTo(b, src, i + 1) == Swept(o.board, p.moved || o.moved, o.source)
  {
  }

  /** One pass of the sweep: every tableau pile takes its turn, left to right. */
  function SweepPass(b: Board, src: int): (r: Swept)
    requires Inv(b)
  {
    PassUpTo(b, src, TableauPiles)
  }

  /**
   * What the first `i` turns of a pass guarantee: the board stays legal,
   * the stock and talon are as they were, no card appears that was not
   * there and no foundation goes down; a move is reported exactly when a
   * tableau card went, and without one the board is unchanged and none of
   * the first `i` piles could give a card to a foundation.
   */
  predicate PassResult(b: Board, i: int, r: Swept)
    requires Inv(b) && 0 <= i <= TableauPiles
  {
    Inv(r.board) && r.board.stock == b.stock && r.board.talon == b.talon &&
    r.board.talonShowing == b.talonShowing &&
    TableauSize(r.board) <= TableauSize(b) && BoardCards(r.board) <= BoardCards(b) &&
    FoundationsGrew(b, r.board) &&
    r.moved == (TableauSize(r.board) < TableauSize(b)) &&
    (!r.moved ==> r.board == b && forall j :: 0 <= j < i ==> FoundationSlot(b, j) == FoundationSlots) &&
    (AllKings(b.foundation) ==> !r.moved)
  }

  lemma {:induction false} PassUpToSpec(b: Board, src: int, i: int)
    requires Inv(b) && 0 <= i <= TableauPiles
    ensures PassResult(b, i, PassUpTo(b, src, i))
  {
    if i > 0 {
      PassUpToSpec(b, src, i - 1);
      var p := PassUpTo(b, src, i - 1);
      var o := Offer(p.board, i - 1, p.source);
      if o.moved {
        PassTurnMoves(b, p, i - 1);
      } else {
        PassTurnKeeps(b, p, i - 1);
      }
    }
  }

  /** A turn that moves a card extends a pass result by that move. */
  lemma PassTurnMoves(b: Board, p: Swept, i: int)
    requires Inv(b) && 0 <= i < TableauPiles && PassResult(b, i, p) && Offer(p.board, i, p.source).moved
    ensures var o := Offer(p.board, i, p.source);
      PassResult(b, i + 1, Swept(o.board, true, o.source))
  {
    var m := p.board;
    var o := Offer(m, i, p.source);
    OfferSpec(m, i, p.source);
    TableauToFoundation(m, i);
    MultisetSubsetTrans(BoardCards(o.board), BoardCards(m), BoardCards(b));
    assert FoundationsGrew(m, o.board);
  }

  /** A turn that moves nothing leaves a pass result as it was, and its pile could give no card. */
  lemma PassTurnKeeps(b: Board, p: Swept, i: int)
    requires Inv(b) && 0 <= i < TableauPiles && PassResult(b, i, p) && !Offer(p.board, i, p.source).moved
    ensures var o := Offer(p.board, i, p.source);
      PassResult(b, i + 1, Swept(o.board, p.moved, o.source))
  {
    var o := Offer(p.board, i, p.source);
    OfferSpec(p.board, i, p.source);
    assert FoundationSlot(p.board, i) == FoundationSlots;
  }

  /**
   * automatically_move_to_foundations: passes are repeated while one of
   * them moved a card; each such pass takes a tableau card, so the sweep
   * ends.  Afterwards no tableau top can go to a foundation, the stock is
   * untouched, no card was created and no foundation went down.
   */
  function Sweep(b: Board, src: int): (r: Swept)
    requires Inv(b)
    ensures Inv(r.board) && r.board.stock == b.stock && r.board.talon == b.talon
    ensures r.board.talonShowing == b.talonShowing
    ensures TableauSize(r.board) <= TableauSize(b) && BoardCards(r.board) <= BoardCards(b)
    ensures FoundationsGrew(b, r.board)
    ensures forall p :: 0 <= p < TableauPiles ==> FoundationSlot(r.board, p) == FoundationSlots
    ensures r.source == src || 0 <= r.source < TableauPiles
    decreases TableauSize(b)
  {
    PassUpToSpec(b, src, TableauPiles);
    var pass := SweepPass(b, src);
    if pass.moved then
      var r := Sweep(pass.board, pass.source);
      Swept(r.board, true, r.source)
    else
      pass
  }

  /** A sweep is one pass followed, when that pass moved a card, by the sweep of what it left. */
  lemma SweepUnfold(b: Board, src: int)
    requires Inv(b)
    ensures var pass := SweepPass(b, src);
      (pass.moved ==> Sweep(pass.board, pass.source).board == Sweep(b, src).board &&
                      Sweep(pass.board, pass.source).source == Sweep(b, src).source) &&
      (!pass.moved ==> Sweep(b, src) == pass)
  {
  }

  // ---------------------------------------------------------------------
  // Stock and talon (deal_card_from_stock)

  /**
   * Whether the flip-limit setting allows another re-deal: 0 = no limit,
   * 1 = zero re-deals, 2 = one, 3 = three.
   */
  predicate FlipAllowed(limit: int, flips: int) {
    limit == 0 || (limit == 2 && flips < 1) || (limit == 3 && flips < 3)
  }

  /** The re-deals a limited setting permits in one game. */
  function FlipCap(limit: int): int
    requires 1 <= limit <= 3
  {
    if limit == 1 then 0 else if limit == 2 then 1 else 3
  }

  /** The draw-three window size for a talon at `t`: `stock_count - talon - 1`, capped at 2. */
  function WindowAfter(n: int, t: int): int {
    if n - t - 1 > MaxShowing then MaxShowing else n - t - 1
  }

  /** deal_card_from_stock: the new board and the new flip count. */
  function DrawFromStock(b: Board, drawThree: bool, limit: int, flips: int): (r: (Board, int))
    requires Inv(b)
  {
    var n := |b.stock|;
    if n > b.talonShowing + 1 then
      var atEnd := b.talon + b.talonShowing + 1 == n;
      var redeal := atEnd && FlipAllowed(limit, flips);
      var t := if redeal then 0 else if atEnd then b.talon else b.talon + b.talonShowing + 1;
      (b.(talon := t, talonShowing := if drawThree then WindowAfter(n, t) else b.talonShowing),
       if redeal then flips + 1 else flips)
    else
      (b, flips)
  }

  /**
   * A draw keeps the invariant and the draw-one window of one card; when it
   * changes the board, the window afterwards lies inside the stock; it
   * touches nothing but the talon window.
   */
  lemma DrawKeepsInv(b: Board, drawThree: bool, limit: int, flips: int)
    requires Inv(b) && (!drawThree ==> b.talonShowing == 0)
    ensures var r := DrawFromStock(b, drawThree, limit, flips).0;
      Inv(r) && (!drawThree ==> r.talonShowing == 0) &&
      (r != b ==> r.talon + r.talonShowing < |r.stock|) &&
      r.stock == b.stock && r.piles == b.piles && r.hidden == b.hidden && r.foundation == b.foundation
  {
  }

  /**
   * The three outcomes of a draw with cards left beyond the window: a
   * re-deal to talon 0 counted in `flips` when the window is at the end and
   * the limit allows it; no change at all when the window is at the end and
   * the limit is exhausted; otherwise the window advances by its size.
   */
  lemma DrawOutcomes(b: Board, drawThree: bool, limit: int, flips: int)
    requires Inv(b) && (!drawThree ==> b.talonShowing == 0)
    ensures var r := DrawFromStock(b, drawThree, limit, flips);
      var n := |b.stock|;
      (n <= b.talonShowing + 1 ==> r == (b, flips)) &&
      (n > b.talonShowing + 1 && b.talon + b.talonShowing + 1 == n ==>
        if FlipAllowed(limit, flips) then r.0.talon == 0 && r.1 == flips + 1
        else r == (b, flips)) &&
      (n > b.talonShowing + 1 && b.talon + b.talonShowing + 1 != n ==>
        r.0.talon == b.talon + b.talonShowing + 1 && r.1 == flips) &&
      (drawThree && r.0 != b ==> r.0.talonShowing == if n - r.0.talon - 1 < MaxShowing then n - r.0.talon - 1 else MaxShowing)
  {
  }

  /** A limited setting never lets draws take the flip count past the limit. */
  lemma FlipLimitEnforced(b: Board, drawThree: bool, limit: int, flips: int)
    requires Inv(b) && 1 <= limit <= 3 && flips <= FlipCap(limit)
    ensures DrawFromStock(b, drawThree, limit, flips).1 <= FlipCap(limit)
    ensures limit == 1 ==> DrawFromStock(b, drawThree, limit, flips).1 == flips
  {
  }

  // ---------------------------------------------------------------------
  // The draw setting toggle (settings menu)

  /**
   * The window the settings menu computes when draw-three is switched on,
   * as written: `stock_count - talon - 1`, capped at 2 but not at 0.
   */
  function ToggleShowingAsWritten(b: Board): int {
    WindowAfter(|b.stock|, b.talon)
  }

  /**
   * On any legal board whose stock is used up (every stock card played,
   * `talon` back at 0) the toggle as written sets the window to -1; the
   * talon source card is then fetched from index `talon + talon_showing`,
   * which is -1, since `stock_count < talon_showing + 1` no longer holds.
   */
  lemma ToggleAsWrittenBreaksWindow(b: Board)
    requires Inv(b) && |b.stock| == 0 && b.talon == 0
    ensures ToggleShowingAsWritten(b) == -1
    ensures !(|b.stock| < ToggleShowingAsWritten(b) + 1)
    ensures b.talon + ToggleShowingAsWritten(b) < 0
  {
  }

  /**
   * The draw toggle's board change, corrected: switching to draw-three sets
   * the window to `stock_count - talon - 1` clamped to 0..2; switching to
   * draw-one closes it.
   */
  function ToggleDrawBoard(b: Board, wasDrawThree: bool): (r: Board) {
    if wasDrawThree then b.(talonShowing := 0)
    else
      var w := WindowAfter(|b.stock|, b.talon);
      b.(talonShowing := if w < 0 then 0 else w)
  }

  lemma ToggleDrawKeepsInv(b: Board, wasDrawThree: bool)
    requires Inv(b)
    ensures Inv(ToggleDrawBoard(b, wasDrawThree))
    ensures wasDrawThree ==> ToggleDrawBoard(b, wasDrawThree).talonShowing == 0
    ensures !wasDrawThree && |b.stock| > 0 ==>
      ToggleDrawBoard(b, wasDrawThree).talonShowing == ToggleShowingAsWritten(b)
  {
  }

  // ---------------------------------------------------------------------
  // The deal (shuffle_and_deal)

  /** Cards dealt to the piles before pile `i`: 0 + 1 + .. + i. */
  function Tri(i: int): (r: int)
    requires 0 <= i <= TableauPiles
    ensures 0 <= r
    decreases i
  {
    if i == 0 then 0 else Tri(i - 1) + i
  }

  lemma {:induction false} TriBound(i: int)
    requires 0 <= i <= TableauPiles
    ensures StockCapacity + Tri(i) <= DeckSize
    decreases TableauPiles - i
  {
    if i < TableauPiles {
      TriBound(i + 1);
    } else {
      assert Tri(7) == 28;
    }
  }

  /** Pile `i` of the deal: the `i + 1` cards that follow the stock and the earlier piles. */
  function DealtPile(deck: seq<int>, i: int): (r: seq<int>)
    requires |deck| == DeckSize && 0 <= i < TableauPiles
    ensures |r| == i + 1
  {
    TriBound(i + 1);
    deck[StockCapacity + Tri(i) .. StockCapacity + Tri(i + 1)]
  }

  /**
   * The board shuffle_and_deal lays out from `deck`: the first 24 cards are
   * the stock, pile `i` takes the next `i + 1` cards with `i` face down,
   * the foundations are empty and the window shows three cards in
   * draw-three mode.
   */
  function Dealt(deck: seq<int>, drawThree: bool): Board
    requires |deck| == DeckSize
  {
    Board(deck[..StockCapacity], 0, if drawThree then MaxShowing else 0, [NoCard, NoCard, NoCard, NoCard],
          seq(TableauPiles, i requires 0 <= i < TableauPiles => DealtPile(deck, i)),
          seq(TableauPiles, i => i))
  }

  lemma {:induction false} DealtPrefix(deck: seq<int>, drawThree: bool, i: int)
    requires |deck| == DeckSize && 0 <= i <= TableauPiles
    ensures StockCapacity + Tri(i) <= DeckSize
    ensures Flatten(Dealt(deck, drawThree).piles[..i]) == deck[StockCapacity .. StockCapacity + Tri(i)]
  {
    TriBound(i);
    var piles := Dealt(deck, drawThree).piles;
    if i > 0 {
      DealtPrefix(deck, drawThree, i - 1);
      assert piles[..i][..i - 1] == piles[..i - 1];
      assert piles[i - 1] == deck[StockCapacity + Tri(i - 1) .. StockCapacity + Tri(i)];
    }
  }

  /**
   * A deal of a deck of cards is a legal board holding the stock and the
   * 28 tableau cards, which between them are exactly the deck.
   */
  lemma DealtInv(deck: seq<int>, drawThree: bool)
    requires |deck| == DeckSize && forall k :: 0 <= k < DeckSize ==> IsCard(deck[k])
    ensures var b := Dealt(deck, drawThree);
      Inv(b) && WithinDeck(b) && |b.stock| == StockCapacity && TableauSize(b) == DeckSize - StockCapacity &&
      BoardCards(b) == multiset(deck)
  {
    var b := Dealt(deck, drawThree);
    forall p | 0 <= p < TableauPiles ensures PileOk(b.piles[p], b.hidden[p]) {
      var pile := b.piles[p];
      assert |pile| == p + 1 && b.hidden[p] == p;
      assert pile[p..] == [pile[p]];
    }
    DealtPrefix(deck, drawThree, TableauPiles);
    assert b.piles[..TableauPiles] == b.piles;
    assert Tri(7) == 28;
    assert deck == deck[..StockCapacity] + deck[StockCapacity..DeckSize];
  }

  // ---------------------------------------------------------------------
  // Facts the engine's step-by-step updates rely on

  /** The stock and the tableau hold as many cards as their lengths say. */
  lemma CardCount(b: Board)
    ensures |BoardCards(b)| == |b.stock| + TableauSize(b)
  {
  }

  /** Putting a run on a pile it fits keeps the board legal. */
  lemma AppendKeepsInv(b: Board, dest: int, run: seq<int>)
    requires Inv(b) && 0 <= dest < TableauPiles && IsRun(run) && |run| > 0
    requires |b.piles[dest]| > 0 ==> Fits(run[0], b.piles[dest][|b.piles[dest]| - 1])
    ensures Inv(Append(b, dest, run))
  {
    var r := Append(b, dest, run);
    assert PileOk(b.piles[dest], b.hidden[dest]);
    AppendRunKeepsPile(b.piles[dest], b.hidden[dest], run);
    forall p | 0 <= p < TableauPiles ensures PileOk(r.piles[p], r.hidden[p]) {
      if p != dest {
        assert r.piles[p] == b.piles[p];
      }
    }
  }

  /**
   * Putting cards on one tableau pile and taking the source card from
   * another commute: move_to_tableau adds first and removes second.
   */
  lemma RemoveAfterAppend(b: Board, src: int, dest: int, cards: seq<int>)
    requires Inv(b) && 0 <= dest < TableauPiles && src != dest && SourceCard(b, src) != NoCard
    requires Inv(Append(b, dest, cards))
    ensures SourceCard(Append(b, dest, cards), src) == SourceCard(b, src)
    ensures RemoveCard(Append(b, dest, cards), src) == Append(RemoveCard(b, src), dest, cards)
  {
    RemoveCardKeepsInv(b, src);
  }

  /** Taking the source card after its foundation was written: move_to_foundation writes first and removes second. */
  lemma RemoveAfterFoundation(b: Board, src: int, i: int, c: int)
    requires Inv(b) && SourceCard(b, src) != NoCard && 0 <= i < FoundationSlots && IsCard(c)
    ensures Inv(b.(foundation := b.foundation[i := c]))
    ensures SourceCard(b.(foundation := b.foundation[i := c]), src) == SourceCard(b, src)
    ensures RemoveCard(b.(foundation := b.foundation[i := c]), src) == RemoveCard(b, src).(foundation := b.foundation[i := c])
  {
  }
}
