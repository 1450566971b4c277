/**
  The height controller of the chat bottom sheet.

  The sheet is anchored to the bottom of the screen. Its height is driven by
  four kinds of events: the layout measurement of the input dock, the two
  effects that run when the screen height or the measured dock height changes,
  the on-screen keyboard showing or hiding, and a vertical pan gesture (plus
  the "expand to MID" request of the dock). Every animation is modelled as
  having committed its target value.

  The pure part (snap selection, opacity, and one step function per event over
  a `SheetState` value) comes first; the class `SheetController` holds the
  shared values the component mutates, and each of its event methods is
  specified by the matching step function.
*/
module ChatBottomSheet {

  /** The MID snap point sits this fraction of the screen below the top. */
  const MID_FRACTION: real := 0.33

  /** Default height of the input dock before it has been measured. */
  const DEFAULT_INPUT_HEIGHT: real := 80.0

  /** Tolerances used by the component. */
  const LAYOUT_JITTER: real := 1.0
  const KEYBOARD_COLLAPSED_TOLERANCE: real := 10.0
  const EFFECT_FAR_TOLERANCE: real := 10.0
  const NEAR_MIN_TOLERANCE: real := 50.0

  function Abs(x: real): (r: real)
    ensures r >= 0.0 && (r == x || r == -x)
  {
    if x < 0.0 then -x else x
  }

  function MinOf(a: real, b: real): real { if a <= b then a else b }
  function MaxOf(a: real, b: real): real { if a >= b then a else b }

  /** `SCREEN_HEIGHT - SCREEN_HEIGHT * 0.33`: the sheet height in the MID state. */
  function MidHeight(screen: real): (h: real)
    ensures 0.0 <= screen ==> 0.0 <= h <= screen
    ensures 0.0 < screen ==> 0.0 < h < screen
  {
    screen - screen * MID_FRACTION
  }

  // ---------------------------------------------------------------------------
  // Snap selection on release
  // ---------------------------------------------------------------------------

  datatype SnapPoint = Full | Mid | Min

  /** The sheet height each snap point stands for. */
  function SnapHeight(p: SnapPoint, minHeight: real, screen: real): real
  {
    match p
    case Full => screen
    case Mid => MidHeight(screen)
    case Min => minHeight
  }

  /** Position in the tie-breaking order: FULL before MID before MIN. */
  function Rank(p: SnapPoint): nat
  {
    match p
    case Full => 0
    case Mid => 1
    case Min => 2
  }

  function SnapDistance(current: real, p: SnapPoint, minHeight: real, screen: real): real
  {
    Abs(current - SnapHeight(p, minHeight, screen))
  }

  /**
    The snap point chosen when a drag ends: one no farther from `current`
    than any other, and strictly nearer than every point that comes before it
    in the tie-breaking order.
  */
  function NearestSnap(current: real, minHeight: real, screen: real): (p: SnapPoint)
    ensures forall q: SnapPoint ::
      SnapDistance(current, p, minHeight, screen) <= SnapDistance(current, q, minHeight, screen)
    ensures forall q: SnapPoint :: Rank(q) < Rank(p) ==>
      SnapDistance(current, p, minHeight, screen) < SnapDistance(current, q, minHeight, screen)
  {
    var distToFull := Abs(current - screen);
    var distToMid := Abs(current - MidHeight(screen));
    var distToMin := Abs(current - minHeight);
    if distToFull <= distToMid && distToFull <= distToMin then Full
    else if distToMid <= distToMin then Mid
    else Min
  }

  /** The nearest-with-preference condition that `NearestSnap` meets. */
  predicate IsPreferredNearest(p: SnapPoint, current: real, minHeight: real, screen: real)
  {
    && (forall q: SnapPoint ::
          SnapDistance(current, p, minHeight, screen) <= SnapDistance(current, q, minHeight, screen))
    && (forall q: SnapPoint :: Rank(q) < Rank(p) ==>
          SnapDistance(current, p, minHeight, screen) < SnapDistance(current, q, minHeight, screen))
  }

  /** Exactly one snap point meets the condition, so the choice is determined by it. */
  lemma {:induction false} PreferredNearestUnique(p: SnapPoint, current: real, minHeight: real, screen: real)
    requires IsPreferredNearest(p, current, minHeight, screen)
    ensures p == NearestSnap(current, minHeight, screen)
  {
    var n := NearestSnap(current, minHeight, screen);
    var dp, dn := SnapDistance(current, p, minHeight, screen), SnapDistance(current, n, minHeight, screen);
    assert dp == dn;
    assert Rank(n) < Rank(p) ==> dp < dn;
    assert Rank(p) < Rank(n) ==> dn < dp;
  }

  /** When MIN <= MID, the snapped height never leaves [MIN, SCREEN_HEIGHT]. */
  lemma SnapWithinBounds(current: real, minHeight: real, screen: real)
    requires 0.0 <= screen && minHeight <= MidHeight(screen)
    ensures var h := SnapHeight(NearestSnap(current, minHeight, screen), minHeight, screen);
      minHeight <= h <= screen
  {
  }

  // ---------------------------------------------------------------------------
  // Opacity of the chat content and of the drag handle
  // ---------------------------------------------------------------------------

  /**
    `interpolate(x, [lo, hi], [0, 1], "clamp")`: linear from 0 at `lo` to 1 at
    `hi`, clamped to [0, 1]; when both edges coincide the left output (0) is
    returned.
  */
  function Interpolate01(x: real, lo: real, hi: real): (r: real)
    ensures 0.0 <= r <= 1.0
    ensures lo < hi && x <= lo ==> r == 0.0
    ensures lo < hi && hi <= x ==> r == 1.0
    ensures lo < hi && lo <= x <= hi ==> r * (hi - lo) == x - lo
    ensures lo == hi ==> r == 0.0
  {
    if hi == lo then 0.0
    else
      var progress := (x - lo) / (hi - lo);
      assert lo < hi ==> (x <= lo ==> progress <= 0.0) && (hi <= x ==> progress >= 1.0) by {
        if lo < hi { QuotientBounds(x - lo, hi - lo); }
      }
      if progress < 0.0 then 0.0
      else if progress > 1.0 then 1.0
      else progress
  }

  lemma QuotientBounds(a: real, b: real)
    requires b > 0.0
    ensures a <= 0.0 ==> a / b <= 0.0
    ensures a >= b ==> a / b >= 1.0
  {
  }

  /** On an increasing input range the opacity never decreases as the height grows. */
  lemma {:induction false} Interpolate01Monotone(x: real, y: real, lo: real, hi: real)
    requires lo < hi && x <= y
    ensures Interpolate01(x, lo, hi) <= Interpolate01(y, lo, hi)
  {
    var d := hi - lo;
    assert (y - lo) / d - (x - lo) / d == (y - x) / d;
    assert (y - x) / d >= 0.0;
  }

  // ---------------------------------------------------------------------------
  // The shared values as one state, and one step function per event
  // ---------------------------------------------------------------------------

  /**
    The numbers the component keeps: `screen` is SCREEN_HEIGHT, `inputHeight`
    is both queryInputHeight and queryInputHeightShared (always written
    together), `sheet` is sheetHeight, `original` is originalSheetHeight and
    `dockOffset` is queryInputTranslateY.
  */
  datatype SheetState = SheetState(
    screen: real,
    inputHeight: real,
    sheet: real,
    startY: real,
    original: real,
    dockOffset: real)

  /** The values at mount. */
  function Initial(screen: real): (s: SheetState)
    ensures s.screen == screen && s.inputHeight == s.sheet == s.original == DEFAULT_INPUT_HEIGHT
    ensures s.startY == 0.0 && s.dockOffset == 0.0
  {
    SheetState(screen, DEFAULT_INPUT_HEIGHT, DEFAULT_INPUT_HEIGHT, 0.0, DEFAULT_INPUT_HEIGHT, 0.0)
  }

  /** handleQueryInputLayout with the measured `height`. */
  function Layout(s: SheetState, height: real): SheetState
  {
    if height > 0.0 && Abs(height - s.inputHeight) > LAYOUT_JITTER then
      var sheet := if s.screen > 0.0 && Abs(s.sheet - height) < NEAR_MIN_TOLERANCE then height else s.sheet;
      s.(inputHeight := height, sheet := sheet)
    else
      s
  }

  /** The first height effect: snap to the input height when more than 10 away. */
  function SnapIfFar(s: SheetState): SheetState
  {
    if s.screen > 0.0 && s.inputHeight > 0.0 && Abs(s.sheet - s.inputHeight) > EFFECT_FAR_TOLERANCE then
      s.(sheet := s.inputHeight)
    else
      s
  }

  /** The second height effect: snap to the input height when less than 50 away. */
  function SnapIfNear(s: SheetState): SheetState
  {
    if s.screen <= 0.0 || s.inputHeight <= 0.0 then s
    else if Abs(s.sheet - s.inputHeight) < NEAR_MIN_TOLERANCE then s.(sheet := s.inputHeight)
    else s
  }

  /** Both effects, in declaration order, as React runs them after a commit. */
  function HeightEffects(s: SheetState): SheetState
  {
    SnapIfNear(SnapIfFar(s))
  }

  /** Keyboard show ("will" or "did"): grow the collapsed sheet, lift the dock. */
  function KeyboardShown(s: SheetState, keyboardHeight: real): SheetState
  {
    var grown :=
      if Abs(s.sheet - s.inputHeight) < KEYBOARD_COLLAPSED_TOLERANCE then
        s.(original := s.sheet, sheet := s.sheet + keyboardHeight)
      else
        s;
    grown.(dockOffset := -keyboardHeight)
  }

  /** Keyboard hide ("will" or "did"): drop the dock, restore the recorded height. */
  function KeyboardHidden(s: SheetState): SheetState
  {
    var restored :=
      if Abs(s.original - s.inputHeight) < KEYBOARD_COLLAPSED_TOLERANCE && s.original > 0.0 then
        s.(sheet := s.original)
      else
        s;
    restored.(dockOffset := 0.0)
  }

  function PanStarted(s: SheetState): SheetState
  {
    s.(startY := s.sheet)
  }

  function PanUpdated(s: SheetState, translationY: real): SheetState
  {
    s.(sheet := MinOf(MaxOf(s.startY - translationY, s.inputHeight), s.screen))
  }

  function PanEnded(s: SheetState): SheetState
  {
    s.(sheet := SnapHeight(NearestSnap(s.sheet, s.inputHeight, s.screen), s.inputHeight, s.screen))
  }

  function ExpandedToMid(s: SheetState): SheetState
  {
    s.(sheet := MidHeight(s.screen))
  }

  /** Opacity of the chat content area. */
  function ChatContentOpacity(s: SheetState): (o: real)
    ensures 0.0 <= o <= 1.0
    ensures s.inputHeight < MidHeight(s.screen) && s.sheet <= s.inputHeight ==> o == 0.0
    ensures s.inputHeight < MidHeight(s.screen) && MidHeight(s.screen) <= s.sheet ==> o == 1.0
  {
    Interpolate01(s.sheet, s.inputHeight, MidHeight(s.screen))
  }

  /** Opacity of the drag handle (the same interpolation, written out a second time). */
  function HandleOpacity(s: SheetState): (o: real)
    ensures 0.0 <= o <= 1.0
    ensures s.inputHeight < MidHeight(s.screen) && s.sheet <= s.inputHeight ==> o == 0.0
    ensures s.inputHeight < MidHeight(s.screen) && MidHeight(s.screen) <= s.sheet ==> o == 1.0
  {
    Interpolate01(s.sheet, s.inputHeight, MidHeight(s.screen))
  }

  /** The two opacities agree in every state. */
  lemma OpacitiesAgree(s: SheetState)
    ensures ChatContentOpacity(s) == HandleOpacity(s)
  {
  }

  /** When min is below MID, both opacities rise (weakly) together with the sheet. */
  lemma {:induction false} OpacitiesRise(s: SheetState, taller: real)
    requires s.inputHeight < MidHeight(s.screen) && s.sheet <= taller
    ensures ChatContentOpacity(s) <= ChatContentOpacity(s.(sheet := taller))
    ensures HandleOpacity(s) <= HandleOpacity(s.(sheet := taller))
  {
    Interpolate01Monotone(s.sheet, taller, s.inputHeight, MidHeight(s.screen));
  }

  // ---------------------------------------------------------------------------
  // Properties of the step functions
  // ---------------------------------------------------------------------------

  /** A drag update follows the finger from the captured start, clamped to [min, SCREEN_HEIGHT]. */
  lemma PanUpdateTracksFinger(s: SheetState, translationY: real)
    requires s.inputHeight <= s.screen
    ensures var t := PanUpdated(s, translationY);
      && s.inputHeight <= t.sheet <= s.screen
      && (s.inputHeight <= s.startY - translationY <= s.screen ==> t.sheet == s.startY - translationY)
      && (s.startY - translationY <= s.inputHeight ==> t.sheet == s.inputHeight)
      && (s.screen <= s.startY - translationY ==> t.sheet == s.screen)
      && t == s.(sheet := t.sheet)
  {
  }

  /** A drag: the start event followed by a run of updates. */
  function Dragged(s: SheetState, translations: seq<real>): SheetState
    decreases |translations|
  {
    if translations == [] then s
    else PanUpdated(Dragged(s, translations[..|translations| - 1]), translations[|translations| - 1])
  }

  /**
    However many updates a drag delivers, the sheet height is that of the last
    one applied to the height captured at the start, so it stays within
    [min, SCREEN_HEIGHT]; nothing but the sheet height changes.
  */
  lemma {:induction false} DragStaysWithinBounds(s: SheetState, translations: seq<real>)
    requires s.inputHeight <= s.screen && translations != []
    ensures var t := Dragged(PanStarted(s), translations);
      && t.sheet == MinOf(MaxOf(s.sheet - translations[|translations| - 1], s.inputHeight), s.screen)
      && s.inputHeight <= t.sheet <= s.screen
      && t == PanStarted(s).(sheet := t.sheet)
  {
    var n := |translations|;
    if n > 1 {
      DragStaysWithinBounds(s, translations[..n - 1]);
      assert translations[..n - 1][n - 2] == translations[n - 2];
    }
  }

  /** The three release examples for SCREEN_HEIGHT 800 and min 80. */
  lemma SnapScenarios()
    ensures MidHeight(800.0) == 536.0
    ensures SnapHeight(NearestSnap(750.0, 80.0, 800.0), 80.0, 800.0) == 800.0
    ensures SnapHeight(NearestSnap(500.0, 80.0, 800.0), 80.0, 800.0) == 536.0
    ensures SnapHeight(NearestSnap(100.0, 80.0, 800.0), 80.0, 800.0) == 80.0
  {
  }

  /**
    expandToMid commits the MID snap height and nothing else, and a drag
    released right where it left the sheet settles back at MID.
  */
  lemma {:induction false} ExpandToMidThenReleaseStays(s: SheetState)
    requires s.screen > 0.0
    ensures ExpandedToMid(s) == s.(sheet := SnapHeight(Mid, s.inputHeight, s.screen))
    ensures PanEnded(ExpandedToMid(s)).sheet == MidHeight(s.screen)
  {
    var t := ExpandedToMid(s);
    assert SnapDistance(t.sheet, Mid, t.inputHeight, t.screen) == 0.0;
    assert SnapDistance(t.sheet, Full, t.inputHeight, t.screen) > 0.0;
  }

  /**
    Together the two effects always leave the sheet at the input height once
    both numbers are positive, and change nothing otherwise: an expanded sheet
    collapses whenever SCREEN_HEIGHT or the measured height changes.
  */
  lemma {:induction false} HeightEffectsCollapse(s: SheetState)
    ensures s.screen > 0.0 && s.inputHeight > 0.0 ==> HeightEffects(s) == s.(sheet := s.inputHeight)
    ensures !(s.screen > 0.0 && s.inputHeight > 0.0) ==> HeightEffects(s) == s
  {
    var t := SnapIfFar(s);
    if s.screen > 0.0 && s.inputHeight > 0.0 {
      assert Abs(t.sheet - t.inputHeight) <= EFFECT_FAR_TOLERANCE;
    }
  }

  /** A repeated identical measurement is ignored: the layout handler is idempotent. */
  lemma {:induction false} LayoutIdempotent(s: SheetState, height: real)
    ensures Layout(Layout(s, height), height) == Layout(s, height)
  {
    var t := Layout(s, height);
    if height > 0.0 && Abs(height - s.inputHeight) > LAYOUT_JITTER {
      assert t.inputHeight == height;
      assert Abs(height - t.inputHeight) == 0.0;
    }
  }

  /**
    The layout handler compares the sheet with the NEW measured height: a
    sheet resting exactly on the old minimum is left where it is when the
    dock grows by 50 or more.
  */
  lemma LayoutComparesWithNewHeight()
    ensures var s := Initial(800.0);
      Layout(s, 140.0) == s.(inputHeight := 140.0)
  {
  }

  /**
    From the collapsed state (a positive sheet within 10 of min), a keyboard
    show followed by a hide brings the sheet back to where it was and the
    dock back to 0; the only trace left is the recorded original height.
  */
  lemma {:induction false} KeyboardRoundTrip(s: SheetState, keyboardHeight: real)
    requires Abs(s.sheet - s.inputHeight) < KEYBOARD_COLLAPSED_TOLERANCE && s.sheet > 0.0
    ensures KeyboardShown(s, keyboardHeight).sheet == s.sheet + keyboardHeight
    ensures KeyboardHidden(KeyboardShown(s, keyboardHeight)) == s.(original := s.sheet, dockOffset := 0.0)
  {
    var shown := KeyboardShown(s, keyboardHeight);
    assert shown.original == s.sheet && shown.inputHeight == s.inputHeight;
  }

  /**
    The hide restores only a positive recorded height: with min 5, a sheet at
    0 counts as collapsed and grows on show, but the hide leaves it grown.
  */
  lemma KeyboardNoRestoreFromZero()
    ensures var s := Initial(800.0).(inputHeight := 5.0, sheet := 0.0);
      && KeyboardShown(s, 300.0).sheet == 300.0
      && KeyboardHidden(KeyboardShown(s, 300.0)).sheet == 300.0
  {
  }

  /** The collapsed example: 80 grows to 380 for a 300-high keyboard and returns to 80. */
  lemma KeyboardScenarioCollapsed()
    ensures var shown := KeyboardShown(Initial(800.0), 300.0);
      && shown.sheet == 380.0 && shown.dockOffset == -300.0
      && KeyboardHidden(shown).sheet == 80.0 && KeyboardHidden(shown).dockOffset == 0.0
  {
  }

  /**
    A second show with the same keyboard height, on top of a first one that
    grew the sheet from at or above the minimum, is a no-op when that height
    is at least 10.
  */
  lemma {:induction false} KeyboardSecondShowIsNoOp(s: SheetState, keyboardHeight: real)
    requires Abs(s.sheet - s.inputHeight) < KEYBOARD_COLLAPSED_TOLERANCE && s.inputHeight <= s.sheet
    requires keyboardHeight >= KEYBOARD_COLLAPSED_TOLERANCE
    ensures var once := KeyboardShown(s, keyboardHeight);
      once.sheet == s.sheet + keyboardHeight && KeyboardShown(once, keyboardHeight) == once
  {
    var once := KeyboardShown(s, keyboardHeight);
    assert once.sheet - once.inputHeight >= KEYBOARD_COLLAPSED_TOLERANCE;
  }

  /** The growth is not guarded per show: with a keyboard under 10 high it compounds. */
  lemma KeyboardSecondShowCompounds()
    ensures var once := KeyboardShown(Initial(800.0), 5.0);
      once.sheet == 85.0 && KeyboardShown(once, 5.0).sheet == 90.0
  {
  }

  /** The keyboard growth is not clamped to SCREEN_HEIGHT. */
  lemma KeyboardGrowthUnclamped()
    ensures KeyboardShown(Initial(200.0), 300.0).sheet == 380.0
  {
  }

  /**
    originalSheetHeight is never cleared: when a show does not grow the sheet
    (it is expanded) while the recorded value still lies within 10 of the
    minimum, the following hide moves the sheet to that stale value.
  */
  lemma {:induction false} KeyboardHideUsesStaleOriginal(s: SheetState, keyboardHeight: real)
    requires Abs(s.sheet - s.inputHeight) >= KEYBOARD_COLLAPSED_TOLERANCE
    requires Abs(s.original - s.inputHeight) < KEYBOARD_COLLAPSED_TOLERANCE && s.original > 0.0
    ensures KeyboardShown(s, keyboardHeight).sheet == s.sheet
    ensures KeyboardHidden(KeyboardShown(s, keyboardHeight)).sheet == s.original
  {
    var shown := KeyboardShown(s, keyboardHeight);
    assert shown.original == s.original && shown.inputHeight == s.inputHeight;
  }

  /** The MID example: a show leaves 536 alone and lifts the dock; the hide then collapses to 80. */
  lemma KeyboardScenarioExpanded()
    ensures var shown := KeyboardShown(Initial(800.0).(sheet := 536.0), 300.0);
      && shown.sheet == 536.0 && shown.dockOffset == -300.0
      && KeyboardHidden(shown).sheet == 80.0
  {
  }

  // ---------------------------------------------------------------------------
  // The component's shared values, mutated by the event handlers
  // ---------------------------------------------------------------------------

  class SheetController {
    var screenHeight: real
    var queryInputHeight: real
    var sheetHeight: real
    var startY: real
    var originalSheetHeight: real
    var queryInputTranslateY: real

    function State(): SheetState
      reads this
    {
      SheetState(screenHeight, queryInputHeight, sheetHeight, startY, originalSheetHeight, queryInputTranslateY)
    }

    constructor(screen: real)
      ensures State() == Initial(screen)
    {
      screenHeight := screen;
      queryInputHeight := DEFAULT_INPUT_HEIGHT;
      sheetHeight := DEFAULT_INPUT_HEIGHT;
      startY := 0.0;
      queryInputTranslateY := 0.0;
      originalSheetHeight := DEFAULT_INPUT_HEIGHT;
    }

    /** A new window height arrives with the next render. */
    method Resize(screen: real)
      modifies this
      ensures State() == old(State()).(screen := screen)
    {
      screenHeight := screen;
    }

    method HandleQueryInputLayout(height: real)
      modifies this
      ensures State() == Layout(old(State()), height)
    {
      if height > 0.0 {
        if Abs(height - queryInputHeight) > LAYOUT_JITTER {
          queryInputHeight := height;
          var currentHeight := sheetHeight;
          if screenHeight > 0.0 && Abs(currentHeight - height) < NEAR_MIN_TOLERANCE {
            sheetHeight := height;
          }
        }
      }
    }

    /** The first useEffect on [SCREEN_HEIGHT, queryInputHeight]. */
    method SnapToInputIfFar()
      modifies this
      ensures State() == SnapIfFar(old(State()))
    {
      if screenHeight > 0.0 && queryInputHeight > 0.0 {
        if Abs(sheetHeight - queryInputHeight) > EFFECT_FAR_TOLERANCE {
          sheetHeight := queryInputHeight;
        }
      }
    }

    /** The second useEffect on [queryInputHeight, SCREEN_HEIGHT]. */
    method SnapToInputIfNear()
      modifies this
      ensures State() == SnapIfNear(old(State()))
    {
      if screenHeight <= 0.0 || queryInputHeight <= 0.0 {
        return;
      }
      var currentHeight := sheetHeight;
      if Abs(currentHeight - queryInputHeight) < NEAR_MIN_TOLERANCE {
        sheetHeight := queryInputHeight;
      }
    }

    /** A commit that changed SCREEN_HEIGHT or queryInputHeight runs both effects in order. */
    method RunHeightEffects()
      modifies this
      ensures State() == HeightEffects(old(State()))
      ensures screenHeight > 0.0 && queryInputHeight > 0.0 ==> sheetHeight == queryInputHeight
    {
      SnapToInputIfFar();
      SnapToInputIfNear();
      HeightEffectsCollapse(old(State()));
    }

    /** The shared body of both keyboard-show listeners. */
    method ShowKeyboard(keyboardHeight: real)
      modifies this
      ensures State() == KeyboardShown(old(State()), keyboardHeight)
    {
      var minHeight := queryInputHeight;
      var currentHeight := sheetHeight;
      var isMinSize := Abs(currentHeight - minHeight) < KEYBOARD_COLLAPSED_TOLERANCE;
      if isMinSize {
        originalSheetHeight := currentHeight;
        sheetHeight := currentHeight + keyboardHeight;
      }
      queryInputTranslateY := -keyboardHeight;
    }

    /** The shared body of both keyboard-hide listeners. */
    method HideKeyboard()
      modifies this
      ensures State() == KeyboardHidden(old(State()))
    {
      queryInputTranslateY := 0.0;
      var minHeight := queryInputHeight;
      var isMinSize := Abs(originalSheetHeight - minHeight) < KEYBOARD_COLLAPSED_TOLERANCE;
      if isMinSize && originalSheetHeight > 0.0 {
        sheetHeight := originalSheetHeight;
      }
    }

    method KeyboardWillShow(keyboardHeight: real)
      modifies this
      ensures State() == KeyboardShown(old(State()), keyboardHeight)
    {
      ShowKeyboard(keyboardHeight);
    }

    method KeyboardWillHide()
      modifies this
      ensures State() == KeyboardHidden(old(State()))
    {
      HideKeyboard();
    }

    method KeyboardDidShow(keyboardHeight: real)
      modifies this
      ensures State() == KeyboardShown(old(State()), keyboardHeight)
    {
      ShowKeyboard(keyboardHeight);
    }

    method KeyboardDidHide()
      modifies this
      ensures State() == KeyboardHidden(old(State()))
    {
      HideKeyboard();
    }

    method PanStart()
      modifies this
      ensures State() == PanStarted(old(State()))
    {
      startY := sheetHeight;
    }

    method PanUpdate(translationY: real)
      modifies this
      ensures State() == PanUpdated(old(State()), translationY)
      ensures queryInputHeight <= screenHeight ==> queryInputHeight <= sheetHeight <= screenHeight
    {
      var next := startY - translationY;
      var minHeight := queryInputHeight;
      var maxHeight := screenHeight;
      var clamped := MinOf(MaxOf(next, minHeight), maxHeight);
      sheetHeight := clamped;
    }

    method PanEnd()
      modifies this
      ensures State() == PanEnded(old(State()))
      ensures IsPreferredNearest(NearestSnap(old(sheetHeight), queryInputHeight, screenHeight),
                                 old(sheetHeight), queryInputHeight, screenHeight)
    {
      var current := sheetHeight;
      var minHeight := queryInputHeight;
      var midHeight := MidHeight(screenHeight);
      var maxHeight := screenHeight;
      var distToFull := Abs(current - maxHeight);
      var distToMid := Abs(current - midHeight);
      var distToMin := Abs(current - minHeight);
      var targetHeight: real;
      if distToFull <= distToMid && distToFull <= distToMin {
        targetHeight := maxHeight;
      } else if distToMid <= distToMin {
        targetHeight := midHeight;
      } else {
        targetHeight := minHeight;
      }
      sheetHeight := targetHeight;
    }

    method ExpandToMid()
      modifies this
      ensures State() == ExpandedToMid(old(State()))
    {
      sheetHeight := MidHeight(screenHeight);
    }
  }
}
