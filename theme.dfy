/** The light/dark theme switch of theme.js: a `dark-mode` class on the body,
    restored at load from the saved `theme` preference, flipped by the toggle
    button, saved again on every flip, and mirrored by the sun and moon icons. */
module Theme {
  import opened Options

  const Dark: string := "dark"
  const Light: string := "light"

  /** Whether the saved preference read at load asks for dark mode. */
  function PrefersDark(saved: Option<string>): bool
  {
    saved == Some(Dark)
  }

  /** The preference a click saves; reading it back at the next load gives
      the same mode. */
  function SavedValue(isDark: bool): (v: string)
    ensures v == Dark || v == Light
    ensures PrefersDark(Some(v)) == isDark
  {
    if isDark then Dark else Light
  }

  class ThemeSwitcher {
    /** Whether `#theme-toggle` exists, and the two icons inside it. */
    const hasButton: bool
    const hasSun: bool
    const hasMoon: bool

    /** The `dark-mode` class on the body. */
    var darkMode: bool
    /** The `theme` entry of local storage. */
    var saved: Option<string>
    /** The `hidden` class on each icon. */
    var sunHidden: bool
    var moonHidden: bool

    /** The icons show `isDark`: the sun while dark, the moon while light.
        Without the button or either icon they are never touched. */
    ghost predicate IconsShow(isDark: bool)
      reads this
    {
      hasButton && hasSun && hasMoon ==> sunHidden == !isDark && moonHidden == isDark
    }

    /** The page load: `markupDark` is whether the body's markup already has
        the `dark-mode` class; the icons show the saved preference. */
    constructor (saved: Option<string>, markupDark: bool,
                 hasButton: bool, hasSun: bool, hasMoon: bool, sunHidden: bool, moonHidden: bool)
      ensures this.saved == saved && this.hasButton == hasButton
      ensures this.hasSun == hasSun && this.hasMoon == hasMoon
      ensures darkMode == (markupDark || PrefersDark(saved))
      ensures IconsShow(PrefersDark(saved))
      ensures !markupDark ==> IconsShow(darkMode)
      ensures !(hasButton && hasSun && hasMoon) ==> this.sunHidden == sunHidden && this.moonHidden == moonHidden
    {
      this.hasButton := hasButton;
      this.hasSun := hasSun;
      this.hasMoon := hasMoon;
      this.saved := saved;
      this.darkMode := markupDark;
      this.sunHidden := sunHidden;
      this.moonHidden := moonHidden;
      new;
      if saved == Some(Dark) {
        darkMode := true;
        UpdateIcon(true);
      } else {
        UpdateIcon(false);
      }
    }

    method UpdateIcon(isDark: bool)
      modifies this`sunHidden, this`moonHidden
      ensures IconsShow(isDark)
      ensures !(hasButton && hasSun && hasMoon) ==> unchanged(this)
    {
      if !hasButton {
        return;
      }
      if hasSun && hasMoon {
        if isDark {
          sunHidden := false;
          moonHidden := true;
        } else {
          sunHidden := true;
          moonHidden := false;
        }
      }
    }

    /** A click on the toggle button (whose listener exists only when the
        button does): flip the mode, save it, update the icons. */
    method Click()
      requires hasButton
      modifies this
      ensures darkMode == !old(darkMode)
      ensures saved == Some(SavedValue(darkMode)) && PrefersDark(saved) == darkMode
      ensures IconsShow(darkMode)
      ensures !(hasSun && hasMoon) ==> sunHidden == old(sunHidden) && moonHidden == old(moonHidden)
    {
      darkMode := !darkMode;
      var isDark := darkMode;
      saved := Some(if isDark then Dark else Light);
      UpdateIcon(isDark);
    }
  }

  /** Two clicks give back the mode the page had before, with the icons showing it. */
  method ClickTwice(theme: ThemeSwitcher)
    requires theme.hasButton
    modifies theme
    ensures theme.darkMode == old(theme.darkMode)
    ensures theme.saved == Some(SavedValue(theme.darkMode))
    ensures theme.IconsShow(theme.darkMode)
  {
    theme.Click();
    theme.Click();
  }
}
