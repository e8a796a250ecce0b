# Portfolio page behaviour, modelled in Dafny

This project models the decision logic of the portfolio site's page script
(`script.js`). The script runs once the document is ready and attaches
independent event listeners. The model covers each listener that makes a
decision or keeps state:

- **Theme controller** (`theme.dfy`). At load it picks dark or light from the
  stored 'theme' preference and the system colour-scheme preference. The
  toggle's `change` listener swaps the body's mode marker and stores the new
  choice.
- **Smooth-scroll navigator** (`smooth_scroll.dfy`). An in-page anchor click
  cancels the jump and requests a scroll to the target's `offsetTop - 80`.
- **Card entrance parameters** (`entrance.dfy`). Cards get a stagger delay
  from their index, and blog cards alternate the side they enter from.
- **Simulated contact-form submission** (`contact_form.dfy`). The cycle runs
  idle → sending → sent → idle through nested timers. A confirmation notice
  is appended, then faded and removed.
- **Navigation bar auto-hide** (`nav_bar.dfy`). A scroll listener keeps
  `lastScroll` and the bar's inline transform and shadow.
- **Back-to-top button** (`back_to_top.dfy`). The button is visible past the
  hero section's bottom edge, and a click scrolls to the top.
- **Hamburger menu** (`hamburger_menu.dfy`). Two 'active' markers are driven
  by the hamburger, nav-link and document click listeners.

Listeners that update elements in place are classes: `ThemeController`,
`NavController`, `FormController` and `MenuController`. Their methods follow
the listener code, and each method's postcondition ties the new state to a
pure step function of the old state, or states the new fields outright. The step functions run over event
sequences, and the lemmas state what the page promises about those runs.
The purely computed parts are functions with lemmas: the theme test, the
scroll target and the back-to-top comparison.

Browser inputs are parameters. These are the stored preference, the
`prefers-color-scheme` match, the scroll offset, the result of the
fragment lookup, and where a click lands. Timers are discrete steps. Any
pending timer may fire next, so the contact-form properties hold for every
firing order, including the real one.

Where the script's comments and its code differ, or the code does more than they say, the model follows the code:

- A stored value other than 'dark' or the empty string selects light, even
  when the system prefers dark. This includes unrecognised strings, not only
  'light' (`Theme.OtherStoredValuesGiveLight`).
- An empty stored string counts as "nothing stored" (JavaScript falsiness).
- On reaching the top, the nav listener returns before recording the offset.
  `lastScroll` keeps the last positive offset, so a later offset is compared
  with that one (`NavBar.TopKeepsLastScroll`, `NavBar.RunLastScroll`).
- Hiding the bar leaves its shadow as it was. The very first event can hide
  the bar while the stylesheet's shadow still applies.
- A theme toggle checked in the markup while light mode is chosen leaves the
  page inconsistent until the first change (`Theme.LoadConsistency`).

## Model

| member | source | states |
|---|---|---|
| Theme.InitialModeFollowsPriority | script.js:6-15 | with no stored value, 'light' or 'dark', the load-time choice equals the priority rule: stored preference, then system preference, then light |
| Theme.OtherStoredValuesGiveLight | script.js:10-15 | a truthy stored value other than 'dark' gives light whatever the system prefers; a missing or empty one gives dark exactly when the system prefers dark |
| Theme.LoadConsistency | script.js:10-15 | after load the dark marker is set iff stored is 'dark' or falsy with a dark system preference; storage is untouched; one marker matches the toggle iff the toggle was unchecked in the markup or dark was chosen |
| Theme.ChangeLeavesOneMatchingMarker | script.js:17-24 | after a change on a body with a mode marker, exactly one marker is set, it matches `checked`, and storage holds 'dark' iff checked |
| Theme.ChangeWithoutMarkerOnlyStores | script.js:18-24 | `classList.replace` on a body without either marker adds none: the state is the input with only the stored value changed, to 'dark' iff checked |
| Theme.ToggleTwiceRestores | script.js:17-25 | two toggles restore the visual state, and restore storage too when it already matched the display |
| Theme.TogglesFlipByParity | script.js:17-25 | after n toggles from a consistent page, the page stays consistent, `checked` flips by the parity of n, and storage matches for n > 0 |
| Theme.ThemeController.Load | script.js:6-15 | the load-time code yields the specified state; with an unchecked toggle in the markup it is consistent |
| Theme.ThemeController.OnChange | script.js:17-25 | the change listener's new fields equal the change step; with a marker present, the result is consistent and persisted |
| Theme.ThemeController.UserToggle | script.js:17-25 | a user activation flips `checked`, runs the listener, and keeps a consistent page consistent and persisted |
| SmoothScroll.OnAnchorClick | script.js:29-40 | the default is always cancelled; a scroll is requested iff the target exists, to exactly its `offsetTop` minus 80 |
| SmoothScroll.RequestedPosition | script.js:32-40 | the position requested is the target's top minus 80 when it exists (negative when the target's top is under 80), else the current position |
| Entrance.NeighboursEnterFromOppositeSides | script.js:79-91 | adjacent blog cards start from opposite sides at the same distance, the first from the left |
| ContactForm.Initial | script.js:107-115 | the form as loaded is idle, enabled, labelled 'Send Message', with no notice |
| ContactForm.StepKeepsValid | script.js:110-146 | every event keeps "disabled iff a cycle is in flight, label matches the phase" |
| ContactForm.RunKeepsValid | script.js:110-146 | that invariant holds after any sequence of events |
| ContactForm.SubmitBlockedInFlight | script.js:118-119 | a submit attempt during sending or sent changes nothing, so at most one cycle is in flight |
| ContactForm.Cycle | script.js:117-139 | submit gives 'Sending...' and disabled; the first timer gives 'Message Sent!' still disabled; the second resets the fields, restores 'Send Message', enables, and appends exactly one notice |
| ContactForm.DisabledUntilReset | script.js:118-129 | from submit until the second cycle timer, under any other events, the button stays disabled and the phase follows the timer count |
| ContactForm.NoticeAddedOnlyByReset | script.js:126-139 | a notice is added only by the reset step, exactly one, at the end |
| ContactForm.NoticeLifecycle | script.js:139-144 | a visible notice's fade timer fades it, and its removal timer removes just that notice |
| ContactForm.FormController.constructor | script.js:107-115 | the controller starts in the initial form state |
| ContactForm.FormController.Submit | script.js:110-119 | the submit listener's effect equals the submit step |
| ContactForm.FormController.FireCycleTimer | script.js:122-146 | the nested cycle timers' effect equals the cycle step and keeps the invariant |
| ContactForm.FormController.FireNoticeTimer | script.js:141-144 | the notice fade and removal timers' effect equals the notice step |
| NavBar.AtTop | script.js:169-173 | an offset at or below 0 (at or above the top of the page) shows the bar with no shadow and leaves `lastScroll` unchanged |
| NavBar.BelowTop | script.js:175-184 | a positive offset sets `lastScroll`; the bar hides iff the offset exceeds `lastScroll` and 100; hiding keeps the shadow, showing sets the drop shadow |
| NavBar.RunLastScroll | script.js:164-184 | after any offsets, `lastScroll` is the most recent positive offset, or the initial value if none |
| NavBar.HiddenIffDownFromLastPositive | script.js:166-185 | after a positive offset, the bar is hidden iff the offset exceeds 100 and the most recent earlier positive offset |
| NavBar.RunKeepsHiddenPastThreshold | script.js:175-184 | whenever the bar is hidden, the recorded offset is past 100 |
| NavBar.RepeatedOffsetShows | script.js:175-182 | a second event at the same positive offset always shows the bar |
| NavBar.Scenario | script.js:163-185 | offsets 0, 50, 150, 120 from the start give shown/no shadow, shown/shadow, hidden, shown/shadow |
| NavBar.TopKeepsLastScroll | script.js:169-184 | offsets 150, 0, 120 give hidden with the stylesheet shadow, shown/no shadow, shown/shadow, because the top does not reset `lastScroll` |
| NavBar.NavController.constructor | script.js:163-164 | `lastScroll` starts at 0 with no inline style |
| NavBar.NavController.OnScroll | script.js:166-185 | the listener's new fields equal the scroll step and keep "hidden only past the threshold" |
| BackToTop.Boundary | script.js:226-233 | the button is hidden at exactly the hero's bottom edge, shown at any offset past it, hidden at or below it |
| BackToTop.ClickHidesButton | script.js:236-241 | the click target (top of page) is a position where the button is hidden, for a hero at a non-negative position |
| HamburgerMenu.RunParity | script.js:248-267 | after any clicks the menu is open iff the hamburger clicks since the last closing click are odd, or, with no closing click, that parity flips the initial state |
| HamburgerMenu.CloseWins | script.js:253-267 | a nav-link or outside click closes the menu whatever came before |
| HamburgerMenu.MenuController.constructor | script.js:244-246 | the menu starts closed with the two markers agreeing |
| HamburgerMenu.MenuController.OnHamburgerClick | script.js:248-251 | the hamburger listener flips each marker |
| HamburgerMenu.MenuController.OnNavLinkClick | script.js:254-259 | a nav-link listener clears both markers |
| HamburgerMenu.MenuController.OnDocumentClick | script.js:262-267 | the document listener clears both markers iff the target is outside both the hamburger and the panel |
| HamburgerMenu.MenuController.Click | script.js:248-267 | element listener then document listener: the markers keep agreeing; the hamburger flips the menu, a link or outside click closes it, another click in the panel leaves it |

## Left out

- The animation library's tweens and scroll triggers (script.js:45-104): easing, durations, viewport intersection and play-once firing. Only the card delays and the blog-card sides are modelled.
- The hero title and subtitle animation (script.js:95-104): it has no decision logic.
- The mouse-move glass highlight (script.js:188-199): pointer coordinates in floating-point pixels written to CSS variables.
- The background-video fallback (script.js:202-219): an asynchronous media call whose only outcome is a fallback marker.
- Local storage and the colour-scheme media query are inputs. A storage write that throws is not modelled.
- Theme.ThemeController.Load: a storage read that throws (storage blocked by the browser) is not modelled. In the script that exception leaves the ready callback at script.js:8. No mode marker is then added, and none of the later listeners are attached: theme toggle, anchors, nav bar, contact form, back-to-top and menu. The load does not fall back silently to the system preference. The model assumes the read returns null or a string.
- CSS selector parsing of the href: the lookup result is an input (`SmoothScroll.Lookup`). The smooth-scroll animation and the browser's clamping of the requested position to the scrollable range are left to the browser.
- Timer durations (1500, 1000, 3000 and 500 ms): timers are ordered discrete steps, and any pending one may fire next.
- The unused form data object, the commented-out parallax and console logging.
- ContactForm.FormController.Submit: the listener at script.js:110-119 has no guard of its own. A submit attempt on a disabled button is a no-op in the model because the browser fires no `submit` event from a disabled default button, by click or by Enter in a field. `ContactForm.SubmitBlockedInFlight` and "at most one cycle in flight" rest on that, and on `.submit-btn` being the form's only submit button. A second enabled submit button, or a script calling `requestSubmit`, would restart the cycle mid-flight. The model does not cover that. Constraint validation (an empty required field, say) is also left to the browser: `Submit` stands for a `submit` event that reached the listener.
- ContactForm.FormController: user typing into fields is only in the pure `Step` (the `Edit` event), because no listener of the script handles it.
- Scroll offsets are real numbers; element offsets and heights are integers, as the page reports them.
- Every element the script looks up exists and the animation library has loaded. Otherwise setup stops at the first failure (script.js:12 and :17 for the theme toggle, :45 for the animation library, :236 for the back-to-top button, :248 for the hamburger), and no later widget is wired. The model wires every widget.
- The markup is taken as follows: the body carries no mode marker, the submit label reads 'Send Message', neither the hamburger nor the menu panel carries 'active', the hamburger lies outside the panel, and the nav links lie inside the panel. A link outside the panel would close the menu through both its own and the document's listener, with the same result.
