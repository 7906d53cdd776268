/**
 * The 82-byte saved-game layout of the Klondike engine.
 *
 *   0        stock_count            1        talon
 *   2..5     foundation[0..3], -1 stored as 255
 *   6..12    tableau_count[0..6]    13..19   hidden_count[0..6]
 *   20..     the stock cards, then the tableau piles 0..6 bottom first
 *   72       win                    73       draw setting
 *   74       flip-limit setting     75       score setting
 *   76       flips                  77       talon_showing
 *   78..81   score, four bytes little-endian two's complement
 *
 * Every field is stored through an `unsigned char` cast (modulo 256).
 * The bytes between the last card and offset 72 are never written.
 */
module Codec {
  import opened Cards
  import opened Rules

  const StateSize: int := 82
  const StockCountAt: int := 0
  const TalonAt: int := 1
  const FoundationAt: int := 2
  const CountAt: int := 6
  const HiddenAt: int := 13
  const BodyAt: int := 20
  const WinAt: int := 72
  const DrawAt: int := 73
  const FlipLimitAt: int := 74
  const ScoreSettingAt: int := 75
  const FlipsAt: int := 76
  const ShowingAt: int := 77
  const ScoreAt: int := 78

  datatype Option<T> = None | Some(value: T)

  /** Everything the layout stores. */
  datatype Saved = Saved(
    board: Board,
    win: bool,
    drawSetting: int,
    flipLimitSetting: int,
    scoreSetting: int,
    flips: int,
    score: int)

  predicate IsByte(x: int) {
    0 <= x < 256
  }

  predicate AllBytes(s: seq<int>) {
    forall k :: 0 <= k < |s| ==> IsByte(s[k])
  }

  /** The `(unsigned char)` cast: the value modulo 256, so -1 becomes 255. */
  function ToByte(x: int): (r: int)
    ensures IsByte(r)
    ensures IsByte(x) ==> r == x
    ensures x == NoCard ==> r == 255
  {
    x % 256
  }

  // ---------------------------------------------------------------------
  // The score field

  const Two31: int := 0x8000_0000
  const Two32: int := 0x1_0000_0000

  predicate IsInt32(x: int) {
    -Two31 <= x < Two31
  }

  /** The four bytes of a 32-bit two's complement score, least significant first. */
  function ScoreBytes(score: int): (r: seq<int>)
    ensures |r| == 4 && AllBytes(r)
  {
    var u := score % Two32;
    var q1 := u / 256;
    var q2 := q1 / 256;
    var q3 := q2 / 256;
    [u % 256, q1 % 256, q2 % 256, q3 % 256]
  }

  function DecodeScore(r: seq<int>): (score: int)
    requires |r| == 4 && AllBytes(r)
    ensures IsInt32(score)
  {
    var u := r[0] + 256 * (r[1] + 256 * (r[2] + 256 * r[3]));
    if u >= Two31 then u - Two32 else u
  }

  lemma ScoreRoundTrip(score: int)
    requires IsInt32(score)
    ensures DecodeScore(ScoreBytes(score)) == score
  {
    var u := score % Two32;
    Base256(u);
    assert u == if score < 0 then score + Two32 else score;
  }

  /** Four base-256 digits, least significant first, give back a 32-bit value. */
  lemma Base256(u: int)
    requires 0 <= u < Two32
    ensures var q1 := u / 256; var q2 := q1 / 256; var q3 := q2 / 256;
      u % 256 + 256 * (q1 % 256 + 256 * (q2 % 256 + 256 * (q3 % 256))) == u
  {
    var q1 := u / 256;
    var q2 := q1 / 256;
    var q3 := q2 / 256;
    assert u == u % 256 + 256 * q1;
    assert q1 == q1 % 256 + 256 * q2;
    assert q2 == q2 % 256 + 256 * q3;
    assert q3 < 256;
  }

  // ---------------------------------------------------------------------
  // Encoding (save_state)

  /** The cards after offset 20: the stock, then the piles in order. */
  function Body(b: Board): seq<int> {
    b.stock + Flatten(b.piles)
  }

  predicate Savable(s: Saved) {
    Shaped(s.board) && WithinDeck(s.board)
  }

  /** Offsets save_state writes: all but the gap between the last card and offset 72. */
  predicate Written(s: Saved, k: int)
    requires Savable(s)
  {
    0 <= k < StateSize && (k < BodyAt + |Body(s.board)| || WinAt <= k)
  }

  /** The byte save_state writes at offset `k`. */
  function ByteAt(s: Saved, k: int): (r: int)
    requires Savable(s) && Written(s, k)
    ensures IsByte(r)
  {
    var b := s.board;
    if k == StockCountAt then ToByte(|b.stock|)
    else if k == TalonAt then ToByte(b.talon)
    else if k < CountAt then ToByte(b.foundation[k - FoundationAt])
    else if k < HiddenAt then ToByte(|b.piles[k - CountAt]|)
    else if k < BodyAt then ToByte(b.hidden[k - HiddenAt])
    else if k < WinAt then ToByte(Body(b)[k - BodyAt])
    else if k == WinAt then (if s.win then 1 else 0)
    else if k == DrawAt then ToByte(s.drawSetting)
    else if k == FlipLimitAt then ToByte(s.flipLimitSetting)
    else if k == ScoreSettingAt then ToByte(s.scoreSetting)
    else if k == FlipsAt then ToByte(s.flips)
    else if k == ShowingAt then ToByte(b.talonShowing)
    else ScoreBytes(s.score)[k - ScoreAt]
  }

  /** `bytes` is a saved image of `s`: 82 bytes, each written offset as save_state writes it, the gap anything. */
  predicate Encodes(s: Saved, bytes: seq<int>)
    requires Savable(s)
  {
    |bytes| == StateSize && AllBytes(bytes) &&
    forall k :: 0 <= k < StateSize && Written(s, k) ==> bytes[k] == ByteAt(s, k)
  }

  /** Stock card `i` is stored at offset 20 + i. */
  lemma StockByte(s: Saved, i: int)
    requires Savable(s) && 0 <= i < |s.board.stock|
    ensures Written(s, BodyAt + i) && ByteAt(s, BodyAt + i) == ToByte(s.board.stock[i])
  {
    assert Body(s.board)[i] == s.board.stock[i];
  }

  /** Card `j` of pile `i` is stored after the stock and the piles before it. */
  lemma PileCardByte(s: Saved, i: int, j: int)
    requires Savable(s) && 0 <= i < TableauPiles && 0 <= j < |s.board.piles[i]|
    ensures var k := BodyAt + |s.board.stock| + |Flatten(s.board.piles[..i])| + j;
      Written(s, k) && k < WinAt && ByteAt(s, k) == ToByte(s.board.piles[i][j])
  {
    var b := s.board;
    FlattenAt(b.piles, i, j);
    var k := |b.stock| + |Flatten(b.piles[..i])| + j;
    assert Body(b)[k] == b.piles[i][j];
  }

  /** The cards of piles 0..i-1 and of pile `i` follow each other in the stored body. */
  lemma PileEnd(s: Saved, i: int)
    requires Savable(s) && 0 <= i < TableauPiles
    ensures |Flatten(s.board.piles[..i + 1])| == |Flatten(s.board.piles[..i])| + |s.board.piles[i]|
    ensures BodyAt + |s.board.stock| + |Flatten(s.board.piles[..i + 1])| <= WinAt
  {
    var b := s.board;
    FlattenPrefix(b.piles, i + 1);
    assert b.piles[..i + 1][..i] == b.piles[..i];
  }

  /** Offsets 72..81: the win flag, the settings, the flip count, the window and the score. */
  function Trailer(s: Saved): (r: seq<int>)
    ensures |r| == StateSize - WinAt
  {
    [if s.win then 1 else 0, ToByte(s.drawSetting), ToByte(s.flipLimitSetting), ToByte(s.scoreSetting),
     ToByte(s.flips), ToByte(s.board.talonShowing)] + ScoreBytes(s.score)
  }

  lemma TrailerBytes(s: Saved)
    requires Savable(s)
    ensures forall k :: WinAt <= k < StateSize ==> Written(s, k) && ByteAt(s, k) == Trailer(s)[k - WinAt]
  {
  }

  // ---------------------------------------------------------------------
  // Decoding (load_state)

  /** The sum of the first `i` counts: where pile `i` starts in the tableau bytes. */
  function Offset(counts: seq<int>, i: int): (r: int)
    requires AllBytes(counts) && 0 <= i <= |counts|
    ensures 0 <= r
  {
    if i == 0 then 0 else Offset(counts, i - 1) + counts[i - 1]
  }

  lemma {:induction false} OffsetMono(counts: seq<int>, i: int, j: int)
    requires AllBytes(counts) && 0 <= i <= j <= |counts|
    ensures Offset(counts, i) <= Offset(counts, j)
    decreases j - i
  {
    if i < j {
      OffsetMono(counts, i, j - 1);
    }
  }

  /** The stored counts leave every card inside the 82 bytes load_state reads. */
  predicate LayoutFits(bytes: seq<int>)
    requires |bytes| == StateSize && AllBytes(bytes)
  {
    BodyAt + bytes[StockCountAt] + Offset(bytes[CountAt..HiddenAt], TableauPiles) <= StateSize
  }

  function DecodeFoundation(x: int): (r: int)
    ensures x == 255 ==> r == NoCard
    ensures x != 255 ==> r == x
  {
    if x == 255 then NoCard else x
  }

  function DecodePile(bytes: seq<int>, i: int): (r: seq<int>)
    requires |bytes| == StateSize && AllBytes(bytes) && LayoutFits(bytes) && 0 <= i < TableauPiles
    ensures |r| == bytes[CountAt + i]
  {
    var counts := bytes[CountAt..HiddenAt];
    var start := BodyAt + bytes[StockCountAt] + Offset(counts, i);
    OffsetMono(counts, i + 1, TableauPiles);
    bytes[start..start + counts[i]]
  }

  function DecodeBoard(bytes: seq<int>): (b: Board)
    requires |bytes| == StateSize && AllBytes(bytes) && LayoutFits(bytes)
    ensures |b.foundation| == FoundationSlots && |b.piles| == TableauPiles && |b.hidden| == TableauPiles
  {
    Board(
      bytes[BodyAt..BodyAt + bytes[StockCountAt]],
      bytes[TalonAt],
      bytes[ShowingAt],
      seq(FoundationSlots, i requires 0 <= i < FoundationSlots => DecodeFoundation(bytes[FoundationAt + i])),
      seq(TableauPiles, i requires 0 <= i < TableauPiles => DecodePile(bytes, i)),
      bytes[HiddenAt..BodyAt])
  }

  /** load_state: nothing unless exactly 82 bytes were read. */
  function Decode(bytes: seq<int>): (r: Option<Saved>)
    requires AllBytes(bytes)
    requires |bytes| == StateSize ==> LayoutFits(bytes)
    ensures r.None? <==> |bytes| != StateSize
  {
    if |bytes| != StateSize then None
    else
      Some(Saved(DecodeBoard(bytes), bytes[WinAt] != 0, bytes[DrawAt], bytes[FlipLimitAt],
                 bytes[ScoreSettingAt], bytes[FlipsAt], DecodeScore(bytes[ScoreAt..StateSize])))
  }

  /**
   * The images load_state can take in: bytes, and, when there are 82 of
   * them, counts that keep every card inside the image and fields that
   * describe a legal board of at most one deck, with the window closed in
   * draw-one mode.  load_state itself checks nothing but the length.
   */
  predicate Loadable(bytes: seq<int>) {
    AllBytes(bytes) &&
    (|bytes| == StateSize ==>
      LayoutFits(bytes) &&
      var s := Decode(bytes).value;
      Inv(s.board) && WithinDeck(s.board) && (s.drawSetting == 0 ==> s.board.talonShowing == 0))
  }

  // ---------------------------------------------------------------------
  // The round trip

  /**
   * The states whose every stored field fits its byte (or, for the score,
   * its 32 bits) and whose stock and piles hold at most one deck of cards.
   */
  predicate Representable(s: Saved) {
    Shaped(s.board) && WithinDeck(s.board) && ByteSized(s.board) &&
    IsByte(s.drawSetting) && IsByte(s.flipLimitSetting) && IsByte(s.scoreSetting) &&
    IsByte(s.flips) && IsInt32(s.score)
  }

  function Lengths(piles: seq<seq<int>>): (r: seq<int>)
    ensures |r| == |piles| && forall i :: 0 <= i < |piles| ==> r[i] == |piles[i]|
  {
    seq(|piles|, i requires 0 <= i < |piles| => |piles[i]|)
  }

  lemma {:induction false} OffsetFlatten(piles: seq<seq<int>>, i: int)
    requires AllBytes(Lengths(piles)) && 0 <= i <= |piles|
    ensures Offset(Lengths(piles), i) == |Flatten(piles[..i])|
  {
    if i > 0 {
      OffsetFlatten(piles, i - 1);
      assert piles[..i][..i - 1] == piles[..i - 1];
    }
  }

  lemma {:induction false} FlattenPrefix(piles: seq<seq<int>>, i: int)
    requires 0 <= i <= |piles|
    ensures Flatten(piles[..i]) <= Flatten(piles)
    decreases |piles| - i
  {
    if i < |piles| {
      FlattenPrefix(piles, i + 1);
      assert piles[..i + 1][..i] == piles[..i];
    } else {
      assert piles[..i] == piles;
    }
  }

  /** Card `j` of pile `i` sits after the cards of piles 0..i-1. */
  lemma FlattenAt(piles: seq<seq<int>>, i: int, j: int)
    requires 0 <= i < |piles| && 0 <= j < |piles[i]|
    ensures |Flatten(piles[..i])| + j < |Flatten(piles)|
    ensures Flatten(piles)[|Flatten(piles[..i])| + j] == piles[i][j]
  {
    FlattenPrefix(piles, i + 1);
    assert piles[..i + 1][..i] == piles[..i];
    assert Flatten(piles[..i + 1]) == Flatten(piles[..i]) + piles[i];
  }

  /** Loading a saved image of a representable state gives that state back, field for field. */
  lemma DecodeEncode(s: Saved, bytes: seq<int>)
    requires Representable(s) && Encodes(s, bytes)
    ensures LayoutFits(bytes)
    ensures Decode(bytes) == Some(s)
  {
    var b := s.board;
    DecodedCounts(s, bytes);
    var d := DecodeBoard(bytes);
    DecodedStock(s, bytes);
    DecodedHeader(s, bytes);
    assert d.piles == b.piles by {
      forall i | 0 <= i < TableauPiles ensures d.piles[i] == b.piles[i] {
        DecodedPile(s, bytes, i);
      }
    }
    assert d == b;
    DecodedTrailer(s, bytes);
  }

  /** Every count, hidden count and card fits a byte, and every foundation top is a card or empty. */
  predicate ByteSized(b: Board)
    requires Shaped(b)
  {
    IsByte(|b.stock|) && IsByte(b.talon) && IsByte(b.talonShowing) &&
    AllBytes(Lengths(b.piles)) && AllBytes(b.hidden) && AllBytes(Body(b)) &&
    (forall i :: 0 <= i < FoundationSlots ==> b.foundation[i] == NoCard || IsCard(b.foundation[i]))
  }

  /** A board that keeps the invariant is byte sized. */
  lemma CardsAreBytes(b: Board)
    requires Inv(b)
    ensures ByteSized(b)
  {
    forall p | 0 <= p < TableauPiles ensures |b.piles[p]| <= PileCapacity {
      PileWithinCapacity(b.piles[p], b.hidden[p]);
    }
    forall k | 0 <= k < |Body(b)| ensures IsByte(Body(b)[k]) {
      if k >= |b.stock| {
        FlattenCards(b.piles, k - |b.stock|);
      }
    }
  }

  /** A card of the flattened tableau is a card of some pile. */
  lemma {:induction false} FlattenCards(piles: seq<seq<int>>, k: int)
    requires forall p :: 0 <= p < |piles| ==> forall j :: 0 <= j < |piles[p]| ==> IsCard(piles[p][j])
    requires 0 <= k < |Flatten(piles)|
    ensures IsCard(Flatten(piles)[k])
  {
    var n := |piles| - 1;
    if k < |Flatten(piles[..n])| {
      FlattenCards(piles[..n], k);
    }
  }

  lemma DecodedCounts(s: Saved, bytes: seq<int>)
    requires Savable(s) && ByteSized(s.board) && Encodes(s, bytes)
    ensures bytes[CountAt..HiddenAt] == Lengths(s.board.piles)
    ensures bytes[StockCountAt] == |s.board.stock|
    ensures LayoutFits(bytes)
  {
    var b := s.board;
    var counts := bytes[CountAt..HiddenAt];
    assert Written(s, StockCountAt);
    forall i | 0 <= i < TableauPiles ensures counts[i] == |b.piles[i]| {
      assert Written(s, CountAt + i);
    }
    OffsetFlatten(b.piles, TableauPiles);
    assert b.piles[..TableauPiles] == b.piles;
  }

  lemma DecodedStock(s: Saved, bytes: seq<int>)
    requires Savable(s) && ByteSized(s.board) && Encodes(s, bytes) && LayoutFits(bytes)
    requires bytes[StockCountAt] == |s.board.stock|
    ensures DecodeBoard(bytes).stock == s.board.stock
  {
    var b := s.board;
    forall k | 0 <= k < |b.stock| ensures bytes[BodyAt + k] == b.stock[k] {
      assert Written(s, BodyAt + k);
      assert Body(b)[k] == b.stock[k];
    }
  }

  lemma DecodedHeader(s: Saved, bytes: seq<int>)
    requires Savable(s) && ByteSized(s.board) && Encodes(s, bytes) && LayoutFits(bytes)
    ensures DecodeBoard(bytes).talon == s.board.talon
    ensures DecodeBoard(bytes).talonShowing == s.board.talonShowing
    ensures DecodeBoard(bytes).foundation == s.board.foundation
    ensures DecodeBoard(bytes).hidden == s.board.hidden
  {
    var b, d := s.board, DecodeBoard(bytes);
    assert Written(s, TalonAt) && Written(s, ShowingAt);
    forall i | 0 <= i < FoundationSlots ensures d.foundation[i] == b.foundation[i] {
      assert Written(s, FoundationAt + i);
      assert bytes[FoundationAt + i] == ToByte(b.foundation[i]);
      assert d.foundation[i] == DecodeFoundation(bytes[FoundationAt + i]);
      if b.foundation[i] != NoCard {
        assert IsCard(b.foundation[i]);
      }
    }
    forall i | 0 <= i < TableauPiles ensures d.hidden[i] == b.hidden[i] {
      assert Written(s, HiddenAt + i);
    }
  }

  lemma DecodedPile(s: Saved, bytes: seq<int>, i: int)
    requires Savable(s) && ByteSized(s.board) && Encodes(s, bytes) && 0 <= i < TableauPiles
    requires bytes[CountAt..HiddenAt] == Lengths(s.board.piles) && LayoutFits(bytes)
    requires bytes[StockCountAt] == |s.board.stock|
    ensures DecodePile(bytes, i) == s.board.piles[i]
  {
    var b := s.board;
    var start := BodyAt + |b.stock| + |Flatten(b.piles[..i])|;
    PileSpan(s, bytes, i);
    forall j | 0 <= j < |b.piles[i]| ensures bytes[start + j] == b.piles[i][j] {
      PileByte(s, bytes, i, j);
    }
    SliceIs(bytes, start, b.piles[i]);
    assert bytes[CountAt..HiddenAt][i] == |b.piles[i]|;
    assert DecodePile(bytes, i) == bytes[start..start + |b.piles[i]|];
  }

  /** Pile `i` is stored right after the piles before it, before the trailer. */
  lemma PileSpan(s: Saved, bytes: seq<int>, i: int)
    requires Savable(s) && ByteSized(s.board) && 0 <= i < TableauPiles
    requires |bytes| == StateSize && bytes[CountAt..HiddenAt] == Lengths(s.board.piles)
    ensures Offset(bytes[CountAt..HiddenAt], i) == |Flatten(s.board.piles[..i])|
    ensures BodyAt + |s.board.stock| + |Flatten(s.board.piles[..i])| + |s.board.piles[i]| <= WinAt
  {
    var b := s.board;
    OffsetFlatten(b.piles, i);
    FlattenPrefix(b.piles, i + 1);
    assert b.piles[..i + 1][..i] == b.piles[..i];
    assert |Flatten(b.piles[..i + 1])| == |Flatten(b.piles[..i])| + |b.piles[i]|;
  }

  lemma SliceIs(bytes: seq<int>, start: int, x: seq<int>)
    requires 0 <= start && start + |x| <= |bytes|
    requires forall j :: 0 <= j < |x| ==> bytes[start + j] == x[j]
    ensures bytes[start..start + |x|] == x
  {
  }

  /** Card `j` of pile `i` sits in the saved image after the stock and the piles before `i`. */
  lemma PileByte(s: Saved, bytes: seq<int>, i: int, j: int)
    requires Savable(s) && ByteSized(s.board) && Encodes(s, bytes)
    requires 0 <= i < TableauPiles && 0 <= j < |s.board.piles[i]| && BodyAt + |Body(s.board)| <= WinAt
    ensures BodyAt + |s.board.stock| + |Flatten(s.board.piles[..i])| + j < BodyAt + |Body(s.board)|
    ensures bytes[BodyAt + |s.board.stock| + |Flatten(s.board.piles[..i])| + j] == s.board.piles[i][j]
  {
    var b := s.board;
    var k := BodyAt + |b.stock| + |Flatten(b.piles[..i])| + j;
    FlattenAt(b.piles, i, j);
    assert Body(b)[k - BodyAt] == b.piles[i][j];
    assert Written(s, k);
  }

  lemma DecodedTrailer(s: Saved, bytes: seq<int>)
    requires Representable(s) && Encodes(s, bytes)
    ensures bytes[WinAt] != 0 <==> s.win
    ensures bytes[DrawAt] == s.drawSetting && bytes[FlipLimitAt] == s.flipLimitSetting
    ensures bytes[ScoreSettingAt] == s.scoreSetting && bytes[FlipsAt] == s.flips
    ensures DecodeScore(bytes[ScoreAt..StateSize]) == s.score
  {
    assert Written(s, WinAt) && Written(s, DrawAt) && Written(s, FlipLimitAt);
    assert Written(s, ScoreSettingAt) && Written(s, FlipsAt);
    forall k | 0 <= k < 4 ensures bytes[ScoreAt + k] == ScoreBytes(s.score)[k] {
      assert Written(s, ScoreAt + k);
    }
    assert bytes[ScoreAt..StateSize] == ScoreBytes(s.score);
    ScoreRoundTrip(s.score);
  }

  /** What save_state writes for a legal state with the window closed in draw-one mode, load_state takes back in. */
  lemma SavedIsLoadable(s: Saved, bytes: seq<int>)
    requires Inv(s.board) && WithinDeck(s.board) && (s.drawSetting == 0 ==> s.board.talonShowing == 0)
    requires IsByte(s.drawSetting) && IsByte(s.flipLimitSetting) && IsByte(s.scoreSetting)
    requires IsByte(s.flips) && IsInt32(s.score)
    requires Savable(s) && Encodes(s, bytes)
    ensures Loadable(bytes) && Decode(bytes) == Some(s)
  {
    CardsAreBytes(s.board);
    DecodeEncode(s, bytes);
  }
}
