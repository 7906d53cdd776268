/**
 * Card model of the Klondike engine.
 *
 * A card is an integer 0..51 packing rank and suit as `4 * rank + suit`:
 * rank 0 is the Ace and 12 the King, suit 0..3 is spades, clubs, hearts,
 * diamonds.  The colour of a suit is its high bit: spades and clubs are
 * black (0), hearts and diamonds red (1).  -1 stands for "no card".
 */
module Cards {

  const NoCard: int := -1
  const Ace: int := 0
  const King: int := 12
  const DeckSize: int := 52
  /** The smallest card value whose rank is King (`card >= 48`). */
  const FirstKing: int := 48

  predicate IsCard(c: int) {
    0 <= c < DeckSize
  }

  /** `card >> 2`: the rank, 0 (Ace) to 12 (King) for a card. */
  function Rank(c: int): (r: int)
    requires 0 <= c
    ensures 0 <= r && c == 4 * r + Suit(c)
    ensures IsCard(c) ==> r <= King
    ensures r == King <==> FirstKing <= c < FirstKing + 4
  {
    c / 4
  }

  /** `card % 4`: the suit position 0..3. */
  function Suit(c: int): (s: int)
    requires 0 <= c
    ensures 0 <= s < 4
  {
    c % 4
  }

  /** `suit >> 1`: 0 for the black suits (0, 1), 1 for the red suits (2, 3). */
  function Colour(suit: int): (k: int)
    requires 0 <= suit < 4
    ensures k == 0 <==> suit < 2
    ensures k == 1 <==> 2 <= suit
  {
    suit / 2
  }

  /** Two cards with the same rank and suit are the same card. */
  lemma RankSuitDetermineCard(c: int, d: int)
    requires 0 <= c && 0 <= d
    requires Rank(c) == Rank(d) && Suit(c) == Suit(d)
    ensures c == d
  {
    assert c == 4 * Rank(c) + Suit(c);
    assert d == 4 * Rank(d) + Suit(d);
  }
}
