/** The slide-out navigation menu of menu.js: an open/closed flag whose every
    flip rewrites the button, overlay, panel, body scroll lock and the links'
    tab order, closed by the overlay, any link and Escape, with a Tab focus
    trap while open. */
module Menu {
  import opened Options

  const EscapeKey: string := "Escape"
  const TabKey: string := "Tab"

  /** `document.body.style.overflow` while the menu is open and closed. */
  const ScrollLocked: string := "hidden"
  const ScrollFree: string := ""

  /** The `tabindex` every menu link gets when the menu opens or closes. */
  function LinkTabIndex(open: bool): string
  {
    if open then "0" else "-1"
  }

  /** Which element has keyboard focus. */
  datatype Focus = MenuButton | Link(index: nat) | Elsewhere

  /** The focus trap: the link a Tab (or Shift+Tab when `shift`) moves focus to
      instead of the browser's default, given `linkCount` links and the focused
      element; None when the default is left alone. */
  function TabWrap(linkCount: nat, active: Focus, shift: bool): (target: Option<nat>)
    ensures target.Some? <==> linkCount > 0 && active == Link(if shift then 0 else linkCount - 1)
    ensures target.Some? ==> target.value == if shift then linkCount - 1 else 0
    ensures target.Some? ==> target.value < linkCount
  {
    if linkCount == 0 then None
    else if shift then (if active == Link(0) then Some(linkCount - 1) else None)
    else (if active == Link(linkCount - 1) then Some(0) else None)
  }

  /** Where focus lands after Tab (Shift+Tab when `shift`) on link `i` of an
      open menu: the trap's target, or else the browser's default, the next
      (previous) link in document order. Focus never leaves the menu. */
  function TrappedTab(linkCount: nat, i: nat, shift: bool): (f: Focus)
    requires i < linkCount
    ensures f.Link? && f.index < linkCount
  {
    match TabWrap(linkCount, Link(i), shift)
    case Some(t) => Link(t)
    case None => Link(if shift then i - 1 else i + 1)
  }

  /** With the trap, Tab cycles forward through the links. */
  lemma TabCyclesForward(linkCount: nat, i: nat)
    requires i < linkCount
    ensures TrappedTab(linkCount, i, false) == Link((i + 1) % linkCount)
  {
    if i + 1 < linkCount {
      assert (i + 1) % linkCount == i + 1;
    } else {
      assert i + 1 == linkCount;
    }
  }

  /** With the trap, Shift+Tab cycles backward through the links. */
  lemma TabCyclesBackward(linkCount: nat, i: nat)
    requires i < linkCount
    ensures TrappedTab(linkCount, i, true) == Link((i + linkCount - 1) % linkCount)
  {
    if i > 0 {
      assert (i + linkCount - 1) % linkCount == i - 1 by {
        assert i + linkCount - 1 == (i - 1) + linkCount;
      }
    } else {
      assert (i + linkCount - 1) % linkCount == linkCount - 1;
    }
  }

  /** The classes and attributes the page's markup gives the menu before any script runs. */
  datatype Markup = Markup(buttonActive: bool, ariaExpanded: bool, overlayHidden: bool,
                           panelHidden: bool, bodyOverflow: string)

  class MobileMenu {
    /** The `tabindex` attribute of each link of `#main-menu`, in document order. */
    const links: array<string>

    var isMenuOpen: bool
    /** The `is-active` class on the menu button. */
    var buttonActive: bool
    /** The menu button's `aria-expanded`. */
    var ariaExpanded: bool
    /** `opacity-0 pointer-events-none` on the overlay. */
    var overlayHidden: bool
    /** `translate-x-full` on the menu panel. */
    var panelHidden: bool
    var bodyOverflow: string
    var activeElement: Focus

    /** The page shows the menu exactly as open or closed as `isMenuOpen` says. */
    ghost predicate Reflects()
      reads this, links
    {
      && ariaExpanded == isMenuOpen
      && overlayHidden == !isMenuOpen
      && panelHidden == !isMenuOpen
      && bodyOverflow == (if isMenuOpen then ScrollLocked else ScrollFree)
      && forall k :: 0 <= k < links.Length ==> links[k] == LinkTabIndex(isMenuOpen)
    }

    /** `is-active` is toggled rather than set, so it agrees with the flag only
        when it did in the markup. */
    ghost predicate Valid()
      reads this, links
    {
      Reflects() && buttonActive == isMenuOpen
    }

    constructor (links: array<string>, markup: Markup)
      ensures this.links == links && !isMenuOpen && activeElement == Elsewhere
      ensures buttonActive == markup.buttonActive && ariaExpanded == markup.ariaExpanded
      ensures overlayHidden == markup.overlayHidden && panelHidden == markup.panelHidden
      ensures bodyOverflow == markup.bodyOverflow
    {
      this.links := links;
      isMenuOpen := false;
      buttonActive := markup.buttonActive;
      ariaExpanded := markup.ariaExpanded;
      overlayHidden := markup.overlayHidden;
      panelHidden := markup.panelHidden;
      bodyOverflow := markup.bodyOverflow;
      activeElement := Elsewhere;
    }

    /** One `forEach` over the links setting their `tabindex`. */
    method SetLinkTabIndex(value: string)
      modifies links
      ensures forall k :: 0 <= k < links.Length ==> links[k] == value
    {
      for i := 0 to links.Length
        invariant forall k :: 0 <= k < i ==> links[k] == value
      {
        links[i] := value;
      }
    }

    /** Flips the menu and brings the whole page in line with the new state;
        closing also focuses the menu button. Runs on a button click. */
    method ToggleMenu()
      modifies this, links
      ensures isMenuOpen == !old(isMenuOpen) && buttonActive == !old(buttonActive)
      ensures Reflects()
      ensures activeElement == if isMenuOpen then old(activeElement) else MenuButton
      ensures old(Valid()) ==> Valid()
    {
      isMenuOpen := !isMenuOpen;
      buttonActive := !buttonActive;
      ariaExpanded := isMenuOpen;
      if isMenuOpen {
        overlayHidden := false;
        panelHidden := false;
        bodyOverflow := ScrollLocked;
        SetLinkTabIndex("0");
      } else {
        overlayHidden := true;
        panelHidden := true;
        bodyOverflow := ScrollFree;
        SetLinkTabIndex("-1");
        activeElement := MenuButton;
      }
    }

    /** Closes an open menu and leaves a closed one alone. Runs on a click on
        the overlay or on any link. */
    method CloseMenu()
      modifies this, links
      ensures !isMenuOpen
      ensures !old(isMenuOpen) ==> unchanged(this) && unchanged(links)
      ensures old(isMenuOpen) ==> Reflects() && buttonActive == !old(buttonActive) && activeElement == MenuButton
      ensures old(Valid()) ==> Valid()
    {
      if isMenuOpen {
        ToggleMenu();
      }
    }

    /** The document's keydown listener: Escape closes an open menu. */
    method OnDocumentKeydown(key: string)
      modifies this, links
      ensures key == EscapeKey ==> !isMenuOpen
      ensures key != EscapeKey || !old(isMenuOpen) ==> unchanged(this) && unchanged(links)
      ensures key == EscapeKey && old(isMenuOpen) ==>
        Reflects() && buttonActive == !old(buttonActive) && activeElement == MenuButton
      ensures old(Valid()) ==> Valid()
    {
      if key == EscapeKey && isMenuOpen {
        CloseMenu();
      }
    }

    /** The menu panel's keydown listener, the focus trap. Returns whether the
        browser's default focus move is suppressed. */
    method OnMenuKeydown(key: string, shift: bool) returns (prevented: bool)
      modifies this`activeElement
      ensures prevented == (key == TabKey && isMenuOpen && TabWrap(links.Length, old(activeElement), shift).Some?)
      ensures activeElement ==
        if prevented then Link(TabWrap(links.Length, old(activeElement), shift).value) else old(activeElement)
    {
      prevented := false;
      if key == TabKey && isMenuOpen {
        var n := links.Length;
        if shift {
          if n > 0 && activeElement == Link(0) {
            prevented := true;
            activeElement := Link(n - 1);
          }
        } else {
          if n > 0 && activeElement == Link(n - 1) {
            prevented := true;
            activeElement := Link(0);
          }
        }
      }
    }
  }

  /** Opening, wrapping focus from the last link to the first, and closing
      twice with Escape, on a menu of three links that starts closed. */
  method MenuScenario()
  {
    var links := new string[3]["-1", "-1", "-1"];
    var menu := new MobileMenu(links, Markup(false, false, true, true, ""));
    assert menu.Valid();
    menu.ToggleMenu();
    assert menu.isMenuOpen && menu.bodyOverflow == "hidden" && links[2] == "0";
    menu.activeElement := Link(2);
    var prevented := menu.OnMenuKeydown(TabKey, false);
    assert prevented && menu.activeElement == Link(0);
    menu.OnDocumentKeydown(EscapeKey);
    assert !menu.isMenuOpen && menu.Valid() && links[0] == "-1";
    menu.OnDocumentKeydown(EscapeKey);
    assert !menu.isMenuOpen && menu.activeElement == MenuButton;
  }
}
