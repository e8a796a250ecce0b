/** The dark/light theme controller: the choice made once the document is
    ready, and the listener on the theme toggle's `change` event.
    Browser storage and the colour-scheme media query are inputs. */
module Theme {

  /** What reading the 'theme' key from local storage gives: null when the
      key was never written, otherwise the stored string. */
  datatype Stored = Absent | Value(text: string)

  datatype Mode = Light | Dark

  /** JavaScript truthiness of a storage read: null and the empty string
      are the falsy results. */
  predicate Falsy(v: Stored) {
    v == Absent || v == Value("")
  }

  /** The load-time test: dark when the stored value is exactly 'dark', or
      when nothing truthy is stored and the system prefers a dark scheme. */
  function InitialMode(stored: Stored, prefersDark: bool): Mode {
    if stored == Value("dark") || (Falsy(stored) && prefersDark) then Dark else Light
  }

  /** The rule the script's comment announces (script.js:6, "check for
      saved user preference or use system preference"), as a reference: a
      recognised stored preference wins, otherwise the system preference,
      otherwise light. */
  function PreferredMode(stored: Stored, prefersDark: bool): Mode {
    if stored == Value("dark") then Dark
    else if stored == Value("light") then Light
    else if prefersDark then Dark
    else Light
  }

  /** For every stored value the page itself can write (or none), the
      load-time test follows the priority rule. */
  lemma InitialModeFollowsPriority(stored: Stored, prefersDark: bool)
    requires stored == Absent || stored == Value("light") || stored == Value("dark")
    ensures InitialMode(stored, prefersDark) == PreferredMode(stored, prefersDark)
  {
  }

  /** Any truthy stored value other than 'dark' gives light, whatever the
      system prefers; only a missing or empty value defers to the system. */
  lemma OtherStoredValuesGiveLight(stored: Stored, prefersDark: bool)
    ensures !Falsy(stored) && stored != Value("dark") ==> InitialMode(stored, prefersDark) == Light
    ensures Falsy(stored) ==> (InitialMode(stored, prefersDark) == Dark <==> prefersDark)
  {
  }

  /** The theme-relevant part of the page: whether the body carries the
      'dark-mode' and 'light-mode' markers, the toggle's checked flag, and
      the stored preference. */
  datatype ThemeState = ThemeState(darkMarker: bool, lightMarker: bool, checked: bool, stored: Stored)

  /** Exactly one mode marker on the body, and it agrees with the toggle. */
  predicate Consistent(s: ThemeState) {
    s.darkMarker != s.lightMarker && s.darkMarker == s.checked
  }

  /** The stored preference is the one the toggle shows. */
  predicate Persisted(s: ThemeState) {
    s.stored == Value(if s.checked then "dark" else "light")
  }

  /** The state after the load-time code, for a body that carries no mode
      marker yet and a toggle whose markup checked flag is `checkedAtLoad`. */
  function AfterLoad(stored: Stored, prefersDark: bool, checkedAtLoad: bool): ThemeState {
    if InitialMode(stored, prefersDark) == Dark then ThemeState(true, false, true, stored)
    else ThemeState(false, true, checkedAtLoad, stored)
  }

  /** `classList.replace(from, to)`: when `from` is present it is removed and
      `to` added; otherwise nothing changes. Gives the new (from, to) presence. */
  function ReplaceMarker(hasFrom: bool, hasTo: bool): (bool, bool) {
    if hasFrom then (false, true) else (hasFrom, hasTo)
  }

  /** The `change` listener: replace the opposite marker and store the mode
      the toggle now shows. */
  function AfterChange(s: ThemeState): ThemeState {
    if s.checked then
      var (light, dark) := ReplaceMarker(s.lightMarker, s.darkMarker);
      ThemeState(dark, light, true, Value("dark"))
    else
      var (dark, light) := ReplaceMarker(s.darkMarker, s.lightMarker);
      ThemeState(dark, light, false, Value("light"))
  }

  /** A user activation of the toggle: the browser flips `checked`, then the
      `change` listener runs. */
  function AfterToggle(s: ThemeState): ThemeState {
    AfterChange(s.(checked := !s.checked))
  }

  /** The load leaves exactly one marker matching the toggle exactly when the
      toggle was unchecked in the markup or the dark theme was chosen. */
  lemma LoadConsistency(stored: Stored, prefersDark: bool, checkedAtLoad: bool)
    ensures Consistent(AfterLoad(stored, prefersDark, checkedAtLoad))
            <==> (!checkedAtLoad || InitialMode(stored, prefersDark) == Dark)
    ensures (AfterLoad(stored, prefersDark, checkedAtLoad).darkMarker
            <==> stored == Value("dark") || (Falsy(stored) && prefersDark))
    ensures AfterLoad(stored, prefersDark, checkedAtLoad).stored == stored
  {
  }

  /** After any change event on a body that carries at least one mode marker,
      the body carries exactly one, it matches the toggle, and the stored
      value is 'dark' exactly when the toggle is checked. */
  lemma ChangeLeavesOneMatchingMarker(s: ThemeState)
    requires s.darkMarker || s.lightMarker
    ensures Consistent(AfterChange(s)) && Persisted(AfterChange(s))
    ensures AfterChange(s).checked == s.checked
  {
  }

  /** When the body carries no marker at all, replace finds nothing to
      replace: the listener only writes storage. */
  lemma ChangeWithoutMarkerOnlyStores(s: ThemeState)
    requires !s.darkMarker && !s.lightMarker
    ensures AfterChange(s) == s.(stored := Value(if s.checked then "dark" else "light"))
    ensures Persisted(AfterChange(s))
  {
  }

  /** Two toggles restore the visual state; storage then holds the value the
      visual state shows, so it is restored too when it already did. */
  lemma ToggleTwiceRestores(s: ThemeState)
    requires Consistent(s)
    ensures AfterToggle(AfterToggle(s)) == s.(stored := Value(if s.checked then "dark" else "light"))
    ensures Persisted(s) ==> AfterToggle(AfterToggle(s)) == s
  {
  }

  /** `n` successive toggles. */
  function Toggles(s: ThemeState, n: nat): ThemeState {
    if n == 0 then s else AfterToggle(Toggles(s, n - 1))
  }

  /** From a consistent state, after any positive number of toggles the page
      is consistent, shows the original mode flipped once per toggle, and
      storage holds the mode shown. */
  lemma {:induction false} TogglesFlipByParity(s: ThemeState, n: nat)
    requires Consistent(s)
    ensures Consistent(Toggles(s, n))
    ensures Toggles(s, n).checked == (s.checked != (n % 2 == 1))
    ensures n > 0 ==> Persisted(Toggles(s, n))
  {
    if n > 0 {
      TogglesFlipByParity(s, n - 1);
    }
  }

  /** The controller as the page holds it: body markers, the toggle and the
      storage entry are fields the handlers update in place. */
  class ThemeController {
    var darkMarker: bool
    var lightMarker: bool
    var checked: bool
    var stored: Stored

    function State(): ThemeState
      reads this
    {
      ThemeState(darkMarker, lightMarker, checked, stored)
    }

    /** The load-time code: read storage and the media query, add one mode
        marker, and check the toggle for the dark theme. */
    constructor Load(storedAtLoad: Stored, prefersDark: bool, checkedAtLoad: bool)
      ensures State() == AfterLoad(storedAtLoad, prefersDark, checkedAtLoad)
      ensures !checkedAtLoad ==> Consistent(State())
    {
      darkMarker, lightMarker, checked, stored := false, false, checkedAtLoad, storedAtLoad;
      if storedAtLoad == Value("dark") || (Falsy(storedAtLoad) && prefersDark) {
        darkMarker := true;
        checked := true;
      } else {
        lightMarker := true;
      }
    }

    /** The `change` listener. */
    method OnChange()
      modifies this
      ensures State() == AfterChange(old(State()))
      ensures old(darkMarker || lightMarker) ==> Consistent(State()) && Persisted(State())
    {
      if checked {
        if lightMarker {
          lightMarker := false;
          darkMarker := true;
        }
        stored := Value("dark");
      } else {
        if darkMarker {
          darkMarker := false;
          lightMarker := true;
        }
        stored := Value("light");
      }
    }

    /** A user activation: the browser flips the checkbox, then dispatches
        `change`. */
    method UserToggle()
      modifies this
      ensures State() == AfterToggle(old(State()))
      ensures checked == !old(checked)
      ensures old(Consistent(State())) ==> Consistent(State()) && Persisted(State())
    {
      checked := !checked;
      OnChange();
    }
  }
}
