/**
 * The lightbox of the image gallery: a cursor that is closed (`None`) or
 * shows image `i` of `len`, moved by clicks, arrow buttons and arrow keys.
 */
module Gallery {
  import opened Wrappers
  import opened Text

  type Cursor = Option<nat>

  /** An open lightbox shows an existing image. */
  predicate Valid(s: Cursor, len: nat) {
    s.None? || s.value < len
  }

  /** `handlePrevious`. */
  function Previous(s: Cursor): (r: Cursor)
    ensures s.Some? && s.value > 0 ==> r == Some(s.value - 1)
    ensures s.None? || s.value == 0 ==> r == s
  {
    if s.Some? && s.value > 0 then Some(s.value - 1) else s
  }

  /** `handleNext`. */
  function Next(s: Cursor, len: nat): (r: Cursor)
    ensures s.Some? && s.value < len - 1 ==> r == Some(s.value + 1)
    ensures s.None? || s.value >= len - 1 ==> r == s
    ensures Valid(s, len) ==> Valid(r, len)
  {
    if s.Some? && s.value < len - 1 then Some(s.value + 1) else s
  }

  /**
   * `KeyDown` is a key reaching `handleKeyDown`; `Close` is the close button or
   * any dismissal of the dialog (Escape, a click outside), which all call
   * `setSelectedIndex(null)`.
   */
  datatype Event = Click(index: nat) | PreviousButton | NextButton | KeyDown(key: string) | Close

  /** Only a rendered thumbnail can be clicked, so a click names an existing image. */
  predicate Clickable(e: Event, len: nat) {
    e.Click? ==> e.index < len
  }

  /** One event: open on a thumbnail, navigate, map arrow keys, or close. */
  function Step(s: Cursor, len: nat, e: Event): (r: Cursor)
    requires Clickable(e, len)
    ensures Valid(s, len) ==> Valid(r, len)
    ensures e.Close? ==> r.None?
    ensures e.Click? ==> r == Some(e.index)
    ensures e.KeyDown? && e.key != "ArrowLeft" && e.key != "ArrowRight" ==> r == s
    ensures s.None? && !e.Click? ==> r.None?
  {
    match e
    case Click(i) => Some(i)
    case PreviousButton => Previous(s)
    case NextButton => Next(s, len)
    case KeyDown(k) => if k == "ArrowLeft" then Previous(s) else if k == "ArrowRight" then Next(s, len) else s
    case Close => None
  }

  /** The arrow keys do what the arrow buttons do. */
  lemma ArrowKeysAreButtons(s: Cursor, len: nat)
    ensures Step(s, len, KeyDown("ArrowLeft")) == Step(s, len, PreviousButton)
    ensures Step(s, len, KeyDown("ArrowRight")) == Step(s, len, NextButton)
  {
  }

  function Run(s: Cursor, len: nat, events: seq<Event>): Cursor
    requires forall k :: 0 <= k < |events| ==> Clickable(events[k], len)
    decreases |events|
  {
    if |events| == 0 then s else Run(Step(s, len, events[0]), len, events[1..])
  }

  /** Any sequence of user events keeps the lightbox on an existing image. */
  lemma {:induction false} RunKeepsValid(s: Cursor, len: nat, events: seq<Event>)
    requires Valid(s, len)
    requires forall k :: 0 <= k < |events| ==> Clickable(events[k], len)
    ensures Valid(Run(s, len, events), len)
    decreases |events|
  {
    if |events| > 0 {
      assert forall k :: 0 <= k < |events[1..]| ==> events[1..][k] == events[k + 1];
      RunKeepsValid(Step(s, len, events[0]), len, events[1..]);
    }
  }

  /** Next undoes Previous, and Previous undoes Next, wherever each one moves. */
  lemma NavigationInverse(i: nat, len: nat)
    requires i < len
    ensures 0 < i ==> Next(Previous(Some(i)), len) == Some(i)
    ensures i < len - 1 ==> Previous(Next(Some(i), len)) == Some(i)
  {
  }

  datatype View = View(counter: Option<string>, showPrevious: bool, showNext: bool, image: Option<nat>)

  /** What the lightbox shows: the counter, the two arrow buttons and the image. */
  function Render(s: Cursor, len: nat): (v: View)
    ensures s.None? ==> v == View(None, false, false, None)
    ensures s.Some? ==> v.counter == Some(Decimal(s.value + 1) + " / " + Decimal(len)) && v.image == s
  {
    View(
      counter := if s.Some? then Some(Decimal(s.value + 1) + " / " + Decimal(len)) else None,
      showPrevious := s.Some? && s.value > 0,
      showNext := s.Some? && s.value < len - 1,
      image := s)
  }

  /** Each arrow button is shown exactly when pressing it would move the cursor. */
  lemma ButtonsShownIffTheyMove(s: Cursor, len: nat)
    ensures Render(s, len).showPrevious <==> Previous(s) != s
    ensures Render(s, len).showNext <==> Next(s, len) != s
  {
  }
}
