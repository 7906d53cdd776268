/**
 * The selection cursor of the Klondike engine, as pure functions.
 *
 * In source mode the cursor visits piles 0..7 (the talon, 7, is always a
 * valid source); in destination mode it visits the tableau piles and the
 * foundations, 0..6 and 8, and falls back to source mode when it comes
 * round to its first candidate again.  The functions mirror the loops of
 * the engine step for step, including the writes to `source` that
 * checking a source pile makes; `Klondike.Game` is proved against them.
 */
module Selection {
  import opened Cards
  import opened Rules

  const SelectSource: int := 0
  const SelectDest: int := 1

  datatype Cursor = Cursor(mode: int, selection: int, source: int)

  /** The values the cursor fields take. */
  predicate CursorOk(c: Cursor) {
    (c.mode == SelectSource || c.mode == SelectDest) &&
    0 <= c.selection <= FoundationsPile && 0 <= c.source <= FoundationsPile &&
    (c.mode == SelectDest ==> c.selection != TalonPile)
  }

  // ---------------------------------------------------------------------
  // Validity of a pile (source_pile_is_valid, destination_pile_is_valid)

  /**
   * A source pile is valid when it is the talon or its card can go to a
   * foundation or onto some tableau pile (the first such pile is found by
   * the scan; `SourceValidMeans` states it without the scan).
   */
  predicate SourceValid(b: Board, s: int)
    requires Inv(b) && 0 <= s
  {
    s == TalonPile || FoundationSlot(b, s) < FoundationSlots || TableauScan(b, s, 0) < TableauPiles
  }

  /** The first tableau pile from `d` on that can take what `s` offers, or 7. */
  function TableauScan(b: Board, s: int, d: int): (r: int)
    requires Inv(b) && 0 <= s && 0 <= d <= TableauPiles
    ensures d <= r <= TableauPiles
    decreases TableauPiles - d
  {
    if d == TableauPiles then TableauPiles
    else if CanMoveToTableau(b, s, d) then d
    else TableauScan(b, s, d + 1)
  }

  /** One step of the scan: pile `d` itself, or the scan from `d + 1`. */
  lemma TableauScanStep(b: Board, s: int, d: int, can: bool)
    requires Inv(b) && 0 <= s && 0 <= d < TableauPiles && can == CanMoveToTableau(b, s, d)
    ensures TableauScan(b, s, d) == if can then d else TableauScan(b, s, d + 1)
  {
  }

  /** The scan finds a pile exactly when some pile from `d` on can take the source card, and it finds the first. */
  lemma {:induction false} TableauScanFinds(b: Board, s: int, d: int)
    requires Inv(b) && 0 <= s && 0 <= d <= TableauPiles
    ensures TableauScan(b, s, d) < TableauPiles <==> exists e :: d <= e < TableauPiles && CanMoveToTableau(b, s, e)
    ensures TableauScan(b, s, d) < TableauPiles ==> CanMoveToTableau(b, s, TableauScan(b, s, d))
    ensures forall e :: d <= e < TableauScan(b, s, d) ==> !CanMoveToTableau(b, s, e)
    decreases TableauPiles - d
  {
    if d < TableauPiles && !CanMoveToTableau(b, s, d) {
      TableauScanFinds(b, s, d + 1);
      var r := TableauScan(b, s, d + 1);
      assert TableauScan(b, s, d) == r;
      forall e | d <= e < r ensures !CanMoveToTableau(b, s, e) {
        if e != d {
          assert d + 1 <= e < r;
        }
      }
      if exists e :: d <= e < TableauPiles && CanMoveToTableau(b, s, e) {
        var e :| d <= e < TableauPiles && CanMoveToTableau(b, s, e);
        assert e != d;
      }
    }
  }

  /** A source pile is valid exactly when it is the talon, or its card can go to a foundation or onto some tableau pile. */
  lemma SourceValidMeans(b: Board, s: int)
    requires Inv(b) && 0 <= s
    ensures SourceValid(b, s) <==>
      s == TalonPile || FoundationSlot(b, s) < FoundationSlots ||
      exists d :: 0 <= d < TableauPiles && CanMoveToTableau(b, s, d)
  {
    TableauScanFinds(b, s, 0);
  }

  /** The write source_pile_is_valid makes: `source` becomes the selection, except for the talon. */
  function CheckSource(c: Cursor): (r: Cursor)
    ensures r.mode == c.mode && r.selection == c.selection
    ensures r.source == if c.selection == TalonPile then c.source else c.selection
  {
    if c.selection == TalonPile then c else c.(source := c.selection)
  }

  predicate IsDest(s: int) {
    0 <= s < TableauPiles || s == FoundationsPile
  }

  /** Whether the source card of `src` can go to destination `s`. */
  predicate DestValid(b: Board, src: int, s: int)
    requires Inv(b) && 0 <= src && IsDest(s)
  {
    if s == FoundationsPile then FoundationSlot(b, src) < FoundationSlots
    else CanMoveToTableau(b, src, s)
  }

  // ---------------------------------------------------------------------
  // select_talon

  /** The first tableau pile from `i` on that is a valid source, or 7. */
  function TalonScan(b: Board, i: int): (r: int)
    requires Inv(b) && 0 <= i <= TableauPiles
    ensures i <= r <= TableauPiles
    decreases TableauPiles - i
  {
    if i == TableauPiles then TableauPiles
    else if SourceValid(b, i) then i
    else TalonScan(b, i + 1)
  }

  /** One step of select_talon's scan: pile `i` itself, or the scan from `i + 1`. */
  lemma TalonScanStep(b: Board, i: int, valid: bool)
    requires Inv(b) && 0 <= i < TableauPiles && valid == SourceValid(b, i)
    ensures TalonScan(b, i) == if valid then i else TalonScan(b, i + 1)
  {
  }

  lemma {:induction false} TalonScanIsFirst(b: Board, i: int)
    requires Inv(b) && 0 <= i <= TableauPiles
    ensures TalonScan(b, i) < TableauPiles ==> SourceValid(b, TalonScan(b, i))
    ensures forall j :: i <= j < TalonScan(b, i) ==> !SourceValid(b, j)
    decreases TableauPiles - i
  {
    if i < TableauPiles && !SourceValid(b, i) {
      TalonScanIsFirst(b, i + 1);
      var r := TalonScan(b, i + 1);
      assert TalonScan(b, i) == r;
      forall j | i <= j < r ensures !SourceValid(b, j) {
        if j > i {
          assert i + 1 <= j < r;
        }
      }
    }
  }

  /**
   * select_talon: nothing once the game is won; otherwise source mode on
   * the talon, or, with the stock used up, on the first tableau pile that
   * is a valid source.  Each pile checked on the way becomes `source`.
   */
  function SelectTalon(b: Board, c: Cursor, win: bool): (r: Cursor)
    requires Inv(b)
  {
    if win then c
    else if |b.stock| < 1 then
      var i := TalonScan(b, 0);
      Cursor(SelectSource, i, if i < TableauPiles then i else TableauPiles - 1)
    else
      c.(mode := SelectSource, selection := TalonPile)
  }

  /**
   * Unless the game is won, select_talon lands in source mode on the
   * talon, or on the first valid tableau pile when the stock is empty; it
   * picks the talon exactly when the stock has cards or no pile is valid.
   */
  lemma SelectTalonSpec(b: Board, c: Cursor, win: bool)
    requires Inv(b) && CursorOk(c)
    ensures win ==> SelectTalon(b, c, win) == c
    ensures var r := SelectTalon(b, c, win);
      CursorOk(r) &&
      (!win ==>
        r.mode == SelectSource &&
        (r.selection == TalonPile <==>
          |b.stock| > 0 || forall j :: 0 <= j < TableauPiles ==> !SourceValid(b, j)) &&
        (r.selection != TalonPile ==>
          0 <= r.selection < TableauPiles && SourceValid(b, r.selection) && r.source == r.selection &&
          forall j :: 0 <= j < r.selection ==> !SourceValid(b, j)))
  {
    TalonScanIsFirst(b, 0);
  }

  /** Where source mode may come to rest: the talon or a valid tableau source (anywhere once the game is won). */
  predicate SourceLanding(b: Board, r: Cursor, win: bool)
    requires Inv(b) && 0 <= r.selection
  {
    win || r.selection == TalonPile || (r.selection < TableauPiles && SourceValid(b, r.selection))
  }

  // ---------------------------------------------------------------------
  // select_next_valid_pile, source mode

  /** The first candidate after `s` in source mode: one on, 8 and above wrapping to 0. */
  function SourceStep(s: int): (r: int)
    ensures 0 <= s < TalonPile ==> r == s + 1
    ensures s >= TalonPile ==> r == 0
  {
    if s + 1 >= FoundationsPile then 0 else s + 1
  }

  /**
   * The source-mode loop from candidate `s`: each tableau candidate is
   * checked (and becomes `source`); the first valid one is selected; on
   * reaching the talon the cursor goes to select_talon.
   */
  function SourceScan(b: Board, c: Cursor, s: int, win: bool): (r: Cursor)
    requires Inv(b) && 0 <= s <= TalonPile
    decreases TalonPile - s
  {
    if s == TalonPile then SelectTalon(b, c.(selection := TalonPile), win)
    else if SourceValid(b, s) then c.(selection := s, source := s)
    else SourceScan(b, c.(selection := s, source := s), s + 1, win)
  }

  /** One step of the source scan, with the validity of pile `s` given. */
  lemma SourceScanStep(b: Board, c: Cursor, s: int, win: bool, valid: bool)
    requires Inv(b) && 0 <= s <= TalonPile && valid == SourceValid(b, s)
    ensures SourceScan(b, c, s, win) ==
      if s == TalonPile then SelectTalon(b, c.(selection := TalonPile), win)
      else if valid then c.(selection := s, source := s)
      else SourceScan(b, c.(selection := s, source := s), s + 1, win)
  {
  }

  lemma {:induction false} SourceScanSpec(b: Board, c: Cursor, s: int, win: bool)
    requires Inv(b) && CursorOk(c) && c.mode == SelectSource && 0 <= s <= TalonPile
    ensures var r := SourceScan(b, c, s, win);
      CursorOk(r) && r.mode == SelectSource && SourceLanding(b, r, win)
    decreases TalonPile - s
  {
    if s == TalonPile {
      SelectTalonSpec(b, c.(selection := TalonPile), win);
    } else if !SourceValid(b, s) {
      SourceScanSpec(b, c.(selection := s, source := s), s + 1, win);
    }
  }

  // ---------------------------------------------------------------------
  // select_next_valid_pile, destination mode

  /** The next candidate in destination mode: one on, the talon skipped, past 8 back to 0. */
  function DestStep(s: int): (r: int)
    requires 0 <= s <= FoundationsPile
    ensures IsDest(r)
  {
    if s + 1 == TalonPile then FoundationsPile
    else if s + 1 > FoundationsPile then 0
    else s + 1
  }

  /** The position of a destination in the cycle 0, 1, .., 6, 8. */
  function Pos(s: int): (k: int)
    requires IsDest(s)
    ensures 0 <= k < 8
  {
    if s == FoundationsPile then 7 else s
  }

  function Unpos(k: int): (s: int)
    requires 0 <= k < 8
    ensures IsDest(s) && Pos(s) == k
  {
    if k == 7 then FoundationsPile else k
  }

  /** Steps from `s` forward to `w` round the cycle. */
  function Dist(s: int, w: int): (n: int)
    requires IsDest(s) && IsDest(w)
    ensures 0 <= n < 8 && (n == 0 <==> s == w)
  {
    if Pos(s) <= Pos(w) then Pos(w) - Pos(s) else Pos(w) - Pos(s) + 8
  }

  /** The destination `k` steps after `s`. */
  function Nth(s: int, k: int): (t: int)
    requires IsDest(s) && 0 <= k <= 8
    ensures IsDest(t)
  {
    var q := Pos(s) + k;
    Unpos(if q < 8 then q else q - 8)
  }

  lemma NthDist(s: int, t: int)
    requires IsDest(s) && IsDest(t)
    ensures Nth(s, Dist(s, t)) == t
  {
  }

  lemma DestStepAdvances(s: int)
    requires IsDest(s)
    ensures Pos(DestStep(s)) == if Pos(s) == 7 then 0 else Pos(s) + 1
  {
  }

  /**
   * The destination-mode loop after candidate `c.selection`, with `w` the
   * first candidate of the call: coming back to `w` switches to source
   * mode through select_talon; otherwise it stops on the first valid
   * destination.
   */
  function DestScan(b: Board, c: Cursor, w: int, win: bool): (r: Cursor)
    requires Inv(b) && IsDest(c.selection) && IsDest(w) && 0 <= c.source
    decreases Dist(DestStep(c.selection), w)
  {
    var s := DestStep(c.selection);
    if s == w then SelectTalon(b, c.(mode := SelectSource, selection := s), win)
    else if DestValid(b, c.source, s) then c.(selection := s)
    else
      DestStepAdvances(c.selection);
      DestStepAdvances(s);
      DestScan(b, c.(selection := s), w, win)
  }

  /** One step of the destination-mode loop. */
  lemma DestScanStep(b: Board, c: Cursor, w: int, win: bool)
    requires Inv(b) && IsDest(c.selection) && IsDest(w) && 0 <= c.source
    ensures var s := DestStep(c.selection);
      DestScan(b, c, w, win) ==
        if s == w then SelectTalon(b, c.(mode := SelectSource, selection := s), win)
        else if DestValid(b, c.source, s) then c.(selection := s)
        else DestScan(b, c.(selection := s), w, win)
  {
  }

  /** The whole destination-mode loop: its first candidate is remembered as `w` and checked like the rest. */
  function NextDest(b: Board, c: Cursor, win: bool): (r: Cursor)
    requires Inv(b) && 0 <= c.selection <= FoundationsPile && 0 <= c.source
  {
    var w := DestStep(c.selection);
    if DestValid(b, c.source, w) then c.(selection := w)
    else DestScan(b, c.(selection := w), w, win)
  }

  /** The destinations the scan has passed are invalid; it keeps destination mode exactly when it stops on a valid one. */
  lemma {:induction false} DestScanSpec(b: Board, c: Cursor, w: int, win: bool)
    requires Inv(b) && CursorOk(c) && c.mode == SelectDest && IsDest(c.selection) && IsDest(w)
    requires !DestValid(b, c.source, w)
    ensures var r := DestScan(b, c, w, win);
      CursorOk(r) &&
      (r.mode == SelectDest ==> IsDest(r.selection) && r.source == c.source && DestValid(b, c.source, r.selection)) &&
      (r.mode != SelectDest ==>
        r.mode == SelectSource && SourceLanding(b, r, win) &&
        forall k :: 1 <= k <= 1 + Dist(DestStep(c.selection), w) ==> !DestValid(b, c.source, Nth(c.selection, k)))
    decreases Dist(DestStep(c.selection), w)
  {
    var s := DestStep(c.selection);
    DestStepAdvances(c.selection);
    if s == w {
      SelectTalonSpec(b, c.(mode := SelectSource, selection := s), win);
    } else if !DestValid(b, c.source, s) {
      DestStepAdvances(s);
      DestScanSpec(b, c.(selection := s), w, win);
      var r := DestScan(b, c, w, win);
      if r.mode != SelectDest {
        forall k | 1 <= k <= 1 + Dist(s, w)
          ensures !DestValid(b, c.source, Nth(c.selection, k))
        {
          if k > 1 {
            assert Nth(c.selection, k) == Nth(s, k - 1);
          }
        }
      }
    }
  }

  /**
   * Destination mode ends on a valid destination in 0..6 or 8 with the
   * source kept, or in source mode; it falls back to source mode exactly
   * when no destination is valid.
   */
  lemma NextDestSpec(b: Board, c: Cursor, win: bool)
    requires Inv(b) && CursorOk(c) && c.mode == SelectDest
    ensures var r := NextDest(b, c, win);
      CursorOk(r) &&
      (r.mode == SelectDest ==> IsDest(r.selection) && r.source == c.source && DestValid(b, c.source, r.selection)) &&
      (r.mode == SelectSource ==> SourceLanding(b, r, win)) &&
      (r.mode == SelectSource <==> forall s :: IsDest(s) ==> !DestValid(b, c.source, s))
  {
    var w := DestStep(c.selection);
    var r := NextDest(b, c, win);
    if !DestValid(b, c.source, w) {
      var c1 := c.(selection := w);
      assert r == DestScan(b, c1, w, win);
      DestScanSpec(b, c1, w, win);
      DestStepAdvances(w);
      assert Dist(DestStep(w), w) == 7;
      if r.mode == SelectSource {
        forall s | IsDest(s) ensures !DestValid(b, c.source, s) {
          if s != w {
            NthDist(w, s);
          }
        }
      }
    }
  }

  // ---------------------------------------------------------------------
  // select_next_valid_pile and select_valid_pile

  function SelectNext(b: Board, c: Cursor, win: bool): (r: Cursor)
    requires Inv(b) && CursorOk(c)
  {
    if c.mode == SelectSource then SourceScan(b, c, SourceStep(c.selection), win)
    else NextDest(b, c, win)
  }

  /** The cursor afterwards is in range; in source mode it rests on the talon or a valid tableau source. */
  lemma SelectNextSpec(b: Board, c: Cursor, win: bool)
    requires Inv(b) && CursorOk(c)
    ensures var r := SelectNext(b, c, win);
      CursorOk(r) &&
      (r.mode == SelectSource ==> SourceLanding(b, r, win)) &&
      (r.mode == SelectDest ==> c.mode == SelectDest && r.source == c.source && DestValid(b, r.source, r.selection))
  {
    if c.mode == SelectSource {
      SourceScanSpec(b, c, SourceStep(c.selection), win);
    } else {
      NextDestSpec(b, c, win);
    }
  }

  /** select_valid_pile: keep a valid selection (a source check still sets `source`), else move on. */
  function SelectValid(b: Board, c: Cursor, win: bool): (r: Cursor)
    requires Inv(b) && CursorOk(c)
  {
    if c.mode == SelectSource then
      if SourceValid(b, c.selection) then CheckSource(c) else SelectNext(b, CheckSource(c), win)
    else
      if DestValid(b, c.source, c.selection) then c else SelectNext(b, c, win)
  }

  /**
   * select_valid_pile leaves the cursor in range; from source mode it
   * stays in source mode and rests on the talon or a valid tableau source;
   * when it rests in destination mode, that is a valid destination for the
   * same source.
   */
  lemma SelectValidSpec(b: Board, c: Cursor, win: bool)
    requires Inv(b) && CursorOk(c)
    ensures var r := SelectValid(b, c, win);
      CursorOk(r) &&
      (c.mode == SelectSource ==> r.mode == SelectSource && SourceLanding(b, r, win)) &&
      (r.mode == SelectDest ==> r.source == c.source && DestValid(b, r.source, r.selection))
  {
    if c.mode == SelectSource {
      if SourceValid(b, c.selection) {
        if c.selection > TalonPile {
          NoSourceBeyondTalon(b, c.selection);
        }
      } else {
        SelectNextSpec(b, CheckSource(c), win);
      }
    } else if !DestValid(b, c.source, c.selection) {
      SelectNextSpec(b, c, win);
    }
  }

  /** Only the talon and the tableau piles can be valid sources. */
  lemma NoSourceBeyondTalon(b: Board, s: int)
    requires Inv(b) && TalonPile < s
    ensures !SourceValid(b, s)
  {
    TableauScanFinds(b, s, 0);
  }

  /** An already valid selection is kept, mode and pile. */
  lemma SelectValidKeepsValid(b: Board, c: Cursor, win: bool)
    requires Inv(b) && CursorOk(c)
    requires c.mode == SelectSource ==> SourceValid(b, c.selection)
    requires c.mode == SelectDest ==> DestValid(b, c.source, c.selection)
    ensures SelectValid(b, c, win).mode == c.mode
    ensures SelectValid(b, c, win).selection == c.selection
  {
  }
}
