/** The theme switcher: a button that cycles light, dark and system, the
    icon it shows for the current theme, and a drop-down that sets a theme
    directly and closes itself. */
module ThemeToggle {
  datatype Icon = Sun | Moon | Monitor

  datatype ThemeOption = ThemeOption(value: string, icon: Icon, displayLabel: string)

  /** The options in cycling order. */
  const Options: seq<ThemeOption> := [
    ThemeOption("light", Sun, "Light"),
    ThemeOption("dark", Moon, "Dark"),
    ThemeOption("system", Monitor, "System")]

  /** `options.findIndex(o => o.value === theme)`: the position of the
      theme among the options, or -1. */
  function IndexOf(theme: string): (r: int)
    ensures -1 <= r < |Options|
    ensures r >= 0 ==> Options[r].value == theme
    ensures r == -1 <==> forall i :: 0 <= i < |Options| ==> Options[i].value != theme
  {
    if theme == "light" then 0
    else if theme == "dark" then 1
    else if theme == "system" then 2
    else -1
  }

  /** The next theme: the option after the current one, wrapping around;
      a theme that is not an option moves to the first. */
  function Cycle(theme: string): (r: string)
    ensures r in {"light", "dark", "system"}
    ensures IndexOf(theme) == -1 ==> r == "light"
    ensures IndexOf(theme) >= 0 ==> IndexOf(r) == (IndexOf(theme) + 1) % 3
  {
    Options[(IndexOf(theme) + 1) % |Options|].value
  }

  /** light goes to dark, dark to system and system back to light; three
      cycles from any option return to it. */
  lemma CycleOrder()
    ensures Cycle("light") == "dark"
    ensures Cycle("dark") == "system"
    ensures Cycle("system") == "light"
    ensures forall t :: IndexOf(t) >= 0 ==> Cycle(Cycle(Cycle(t))) == t
  {
  }

  /** The icon of the current theme, falling back to the sun. */
  function CurrentIcon(theme: string): (r: Icon)
    ensures IndexOf(theme) >= 0 ==> r == Options[IndexOf(theme)].icon
    ensures IndexOf(theme) == -1 ==> r == Sun
  {
    if theme == "dark" then Moon
    else if theme == "system" then Monitor
    else Sun
  }

  /** The drop-down: the theme in force and whether the menu is open. */
  datatype Dropdown = Dropdown(theme: string, isOpen: bool)

  /** Clicking the trigger opens or closes the menu. */
  function ToggleMenu(d: Dropdown): (r: Dropdown)
    ensures r.theme == d.theme && r.isOpen != d.isOpen
  {
    d.(isOpen := !d.isOpen)
  }

  /** Choosing an option sets its theme and closes the menu. */
  function Choose(d: Dropdown, option: ThemeOption): (r: Dropdown)
    ensures r.theme == option.value && !r.isOpen
  {
    Dropdown(option.value, false)
  }

  /** Choosing any listed option leaves a theme the cycle button knows, and
      the trigger then shows that option's icon. */
  lemma ChooseThenIcon(d: Dropdown, i: nat)
    requires i < |Options|
    ensures IndexOf(Choose(d, Options[i]).theme) == i
    ensures CurrentIcon(Choose(d, Options[i]).theme) == Options[i].icon
  {
  }
}
