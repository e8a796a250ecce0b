/** The navigation bar's auto-hide rule, driven by the page's vertical scroll
    offset on every scroll event. */
module NavBar {

  /** The bar's inline box-shadow: never set yet (the stylesheet's own
      value applies), set to 'none', or set to the drop shadow. */
  datatype Shadow = StyleSheet | NoShadow | DropShadow

  /** What the scroll listener keeps: the recorded `lastScroll`, whether the
      bar is translated out of view, and its inline shadow. */
  datatype NavState = NavState(lastScroll: real, hidden: bool, shadow: Shadow)

  /** What the user sees of the bar after an event. */
  datatype View = View(hidden: bool, shadow: Shadow)

  const HideThreshold: real := 100.0

  /** Before any scroll event: `lastScroll` is 0 and no inline style is set. */
  const Start: NavState := NavState(0.0, false, StyleSheet)

  /** One scroll event at offset `y`. At or above the top the bar is shown
      without shadow and the listener returns before recording `y`. Moving
      down past the threshold hides the bar and leaves the shadow as it was.
      Any other positive offset shows the bar with the drop shadow. */
  function AfterScroll(s: NavState, y: real): NavState {
    if y <= 0.0 then s.(hidden := false, shadow := NoShadow)
    else if y > s.lastScroll && y > HideThreshold then s.(lastScroll := y, hidden := true)
    else NavState(y, false, DropShadow)
  }

  function ViewOf(s: NavState): View {
    View(s.hidden, s.shadow)
  }

  /** The state after the scroll events `ys`, in order. */
  function Run(s: NavState, ys: seq<real>): NavState
    decreases |ys|
  {
    if ys == [] then s else AfterScroll(Run(s, ys[..|ys| - 1]), ys[|ys| - 1])
  }

  /** The bar as seen after each of the scroll events `ys`. */
  function Views(s: NavState, ys: seq<real>): (vs: seq<View>)
    ensures |vs| == |ys|
    decreases |ys|
  {
    if ys == [] then [] else [ViewOf(AfterScroll(s, ys[0]))] + Views(AfterScroll(s, ys[0]), ys[1..])
  }

  /** The offset `lastScroll` should hold: the most recent positive offset of
      `ys`, or `d` when there is none. */
  function LastPositive(ys: seq<real>, d: real): real
    decreases |ys|
  {
    if ys == [] then d
    else if ys[|ys| - 1] > 0.0 then ys[|ys| - 1]
    else LastPositive(ys[..|ys| - 1], d)
  }

  /** At or above the top: shown, no shadow, `lastScroll` unchanged. */
  lemma AtTop(s: NavState, y: real)
    requires y <= 0.0
    ensures AfterScroll(s, y) == NavState(s.lastScroll, false, NoShadow)
  {
  }

  /** Below the top: moving down past the threshold hides the bar and keeps
      the shadow; anything else shows it with the drop shadow; either way
      `lastScroll` becomes `y`. */
  lemma BelowTop(s: NavState, y: real)
    requires y > 0.0
    ensures AfterScroll(s, y).lastScroll == y
    ensures AfterScroll(s, y).hidden <==> y > s.lastScroll && y > HideThreshold
    ensures AfterScroll(s, y).hidden ==> AfterScroll(s, y).shadow == s.shadow
    ensures !AfterScroll(s, y).hidden ==> AfterScroll(s, y).shadow == DropShadow
  {
  }

  /** `lastScroll` always holds the most recent positive offset seen. */
  lemma {:induction false} RunLastScroll(s: NavState, ys: seq<real>)
    ensures Run(s, ys).lastScroll == LastPositive(ys, s.lastScroll)
    decreases |ys|
  {
    if ys != [] {
      RunLastScroll(s, ys[..|ys| - 1]);
    }
  }

  /** After a positive offset, the bar is hidden exactly when that offset is
      past the threshold and beyond the most recent earlier positive offset
      (not necessarily the previous event's offset). */
  lemma HiddenIffDownFromLastPositive(s: NavState, ys: seq<real>)
    requires ys != [] && ys[|ys| - 1] > 0.0
    ensures Run(s, ys).hidden
            <==> ys[|ys| - 1] > HideThreshold && ys[|ys| - 1] > LastPositive(ys[..|ys| - 1], s.lastScroll)
  {
    RunLastScroll(s, ys[..|ys| - 1]);
  }

  /** The bar is only ever hidden while the recorded offset is past the
      threshold. */
  predicate HiddenPastThreshold(s: NavState) {
    s.hidden ==> s.lastScroll > HideThreshold
  }

  lemma {:induction false} RunKeepsHiddenPastThreshold(s: NavState, ys: seq<real>)
    requires HiddenPastThreshold(s)
    ensures HiddenPastThreshold(Run(s, ys))
    decreases |ys|
  {
    if ys != [] {
      RunKeepsHiddenPastThreshold(s, ys[..|ys| - 1]);
    }
  }

  /** A scroll event repeating the recorded offset always shows the bar. */
  lemma RepeatedOffsetShows(s: NavState, y: real)
    requires y > 0.0
    ensures !AfterScroll(AfterScroll(s, y), y).hidden
  {
  }

  /** The per-event views agree with the state reached by each prefix. */
  lemma {:induction false} ViewsArePrefixRuns(s: NavState, ys: seq<real>, k: nat)
    requires k < |ys|
    ensures Views(s, ys)[k] == ViewOf(Run(s, ys[..k + 1]))
    decreases |ys|
  {
    if k == 0 {
      assert ys[..1] == [ys[0]];
      assert ys[..1][..0] == [];
    } else {
      ViewsArePrefixRuns(AfterScroll(s, ys[0]), ys[1..], k - 1);
      RunFirst(s, ys[..k + 1]);
      assert ys[..k + 1][1..] == ys[1..][..k];
    }
  }

  /** Running a non-empty sequence is running its tail from the state after
      its first event. */
  lemma {:induction false} RunFirst(s: NavState, ys: seq<real>)
    requires ys != []
    ensures Run(s, ys) == Run(AfterScroll(s, ys[0]), ys[1..])
    decreases |ys|
  {
    if |ys| > 1 {
      RunFirst(s, ys[..|ys| - 1]);
      assert ys[..|ys| - 1][1..] == ys[1..][..|ys| - 2];
    } else {
      assert ys[..0] == [];
      assert ys[1..] == [];
    }
  }

  /** The scenario of offsets 0, 50, 150, 120 from the start. */
  lemma Scenario()
    ensures Views(Start, [0.0, 50.0, 150.0, 120.0])
            == [View(false, NoShadow), View(false, DropShadow), View(true, DropShadow), View(false, DropShadow)]
  {
    var ys := [0.0, 50.0, 150.0, 120.0];
    assert ys[1..] == [50.0, 150.0, 120.0];
    assert ys[1..][1..] == [150.0, 120.0];
    assert ys[1..][1..][1..] == [120.0];
    assert ys[1..][1..][1..][1..] == [];
  }

  /** Returning to the top does not reset `lastScroll`: after 150, 0, 120 the
      bar stays shown although 120 is past the threshold and below the top.
      The first event also shows that hiding keeps the stylesheet's shadow. */
  lemma TopKeepsLastScroll()
    ensures Views(Start, [150.0, 0.0, 120.0])
            == [View(true, StyleSheet), View(false, NoShadow), View(false, DropShadow)]
  {
    var ys := [150.0, 0.0, 120.0];
    assert ys[1..] == [0.0, 120.0];
    assert ys[1..][1..] == [120.0];
    assert ys[1..][1..][1..] == [];
  }

  /** The scroll listener with its captured `lastScroll` and the bar's
      inline style fields. */
  class NavController {
    var lastScroll: real
    var hidden: bool
    var shadow: Shadow

    function State(): NavState
      reads this
    {
      NavState(lastScroll, hidden, shadow)
    }

    constructor ()
      ensures State() == Start
    {
      lastScroll, hidden, shadow := 0.0, false, StyleSheet;
    }

    /** The listener for one scroll event at offset `y`. */
    method OnScroll(y: real)
      modifies this
      ensures State() == AfterScroll(old(State()), y)
      ensures old(HiddenPastThreshold(State())) ==> HiddenPastThreshold(State())
    {
      if y <= 0.0 {
        hidden := false;
        shadow := NoShadow;
        return;
      }
      if y > lastScroll && y > HideThreshold {
        hidden := true;
      } else {
        hidden := false;
        shadow := DropShadow;
      }
      lastScroll := y;
    }
  }
}
