/** The mobile menu: an 'active' marker on the hamburger control and on the
    menu panel, set and cleared by three click listeners. */
module HamburgerMenu {

  /** Where a click lands. A click on a nav link is inside the panel. Every
      click bubbles to its element's listener (if any) and then to the
      document's listener. */
  datatype Target = OnHamburger | OnNavLink | InPanel | Outside

  /** The links and any click outside both the control and the panel close
      the menu. */
  predicate Closes(t: Target) {
    t == OnNavLink || t == Outside
  }

  /** The menu's state after one click, as the script's comments put it
      (script.js:253, "close menu when clicking a link"; script.js:261,
      "close menu when clicking outside"): the hamburger flips it, a link or
      an outside click closes it, any other click inside the panel leaves
      it. */
  function AfterClick(open: bool, t: Target): bool {
    match t
    case OnHamburger => !open
    case OnNavLink => false
    case InPanel => open
    case Outside => false
  }

  /** The state after the clicks `ts`, in order. */
  function Run(open: bool, ts: seq<Target>): bool
    decreases |ts|
  {
    if ts == [] then open else AfterClick(Run(open, ts[..|ts| - 1]), ts[|ts| - 1])
  }

  /** Whether any click of `ts` closes the menu. */
  predicate HasClose(ts: seq<Target>)
    decreases |ts|
  {
    ts != [] && (Closes(ts[|ts| - 1]) || HasClose(ts[..|ts| - 1]))
  }

  /** The number of hamburger clicks after the last closing click. */
  function TogglesSinceClose(ts: seq<Target>): nat
    decreases |ts|
  {
    if ts == [] then 0
    else if Closes(ts[|ts| - 1]) then 0
    else TogglesSinceClose(ts[..|ts| - 1]) + (if ts[|ts| - 1] == OnHamburger then 1 else 0)
  }

  /** After any sequence of clicks the menu is open exactly when an odd
      number of hamburger clicks came after the last closing click, or, with
      no closing click at all, when that parity flipped the initial state. */
  lemma {:induction false} RunParity(open: bool, ts: seq<Target>)
    ensures Run(open, ts)
            == if HasClose(ts) then TogglesSinceClose(ts) % 2 == 1
               else open != (TogglesSinceClose(ts) % 2 == 1)
    decreases |ts|
  {
    if ts != [] {
      RunParity(open, ts[..|ts| - 1]);
    }
  }

  /** A closing click ends with the menu closed, whatever came before. */
  lemma CloseWins(open: bool, ts: seq<Target>, t: Target)
    requires Closes(t)
    ensures !Run(open, ts + [t])
  {
    assert (ts + [t])[..|ts|] == ts;
  }

  /** The menu as the page holds it: the two markers, updated in place. */
  class MenuController {
    var hamburgerActive: bool
    var panelActive: bool

    /** The two markers agree. */
    predicate Valid()
      reads this
    {
      hamburgerActive == panelActive
    }

    function IsOpen(): bool
      reads this
    {
      hamburgerActive
    }

    /** Neither element carries the marker in the markup. */
    constructor ()
      ensures Valid() && !IsOpen()
    {
      hamburgerActive, panelActive := false, false;
    }

    /** The hamburger's listener toggles each marker on its own. */
    method OnHamburgerClick()
      modifies this
      ensures hamburgerActive == !old(hamburgerActive) && panelActive == !old(panelActive)
    {
      hamburgerActive := !hamburgerActive;
      panelActive := !panelActive;
    }

    /** Each nav link's listener removes both markers. */
    method OnNavLinkClick()
      modifies this
      ensures !hamburgerActive && !panelActive
    {
      hamburgerActive := false;
      panelActive := false;
    }

    /** The document's listener removes both markers unless the click target
        lies within the hamburger or within the panel. */
    method OnDocumentClick(inHamburger: bool, inPanel: bool)
      modifies this
      ensures if !inHamburger && !inPanel then !hamburgerActive && !panelActive
              else hamburgerActive == old(hamburgerActive) && panelActive == old(panelActive)
    {
      if !inHamburger && !inPanel {
        hamburgerActive := false;
        panelActive := false;
      }
    }

    /** One click: the listener of the element it lands in, then the
        document's listener. The markers keep agreeing, and the menu moves
        as the one-click rule `AfterClick` says. */
    method Click(t: Target)
      requires Valid()
      modifies this
      ensures Valid()
      ensures IsOpen() == AfterClick(old(IsOpen()), t)
    {
      match t
      case OnHamburger =>
        OnHamburgerClick();
        OnDocumentClick(true, false);
      case OnNavLink =>
        OnNavLinkClick();
        OnDocumentClick(false, true);
      case InPanel =>
        OnDocumentClick(false, true);
      case Outside =>
        OnDocumentClick(false, false);
    }
  }
}
