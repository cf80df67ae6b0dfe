/** The light/dark switch of context/ThemeContext.tsx. The colour tables
    themselves are constants of the design system; the model only records
    which of the two tables is selected. */
module ThemeContext {
  import opened Common

  datatype Theme = Light | Dark

  /** `COLORS` or `DARK_COLORS`. */
  datatype Palette = Colors | DarkColors

  /** The updater passed to `setTheme`: 'light' becomes 'dark', anything
      else becomes 'light'. */
  function Toggled(t: Theme): (r: Theme)
    ensures r != t
    ensures r == Light <==> t != Light
  {
    if t == Light then Dark else Light
  }

  /** `colors`: the light table exactly for the light theme. */
  function PaletteOf(t: Theme): (p: Palette)
    ensures p == Colors <==> t == Light
  {
    if t == Light then Colors else DarkColors
  }

  /** Two toggles cancel; one toggle always switches the palette. */
  lemma ToggleTwice(t: Theme)
    ensures Toggled(Toggled(t)) == t
    ensures PaletteOf(Toggled(t)) != PaletteOf(t)
  {
  }

  class ThemeProvider {
    var theme: Theme

    constructor ()
      ensures theme == Light
    {
      theme := Light;
    }

    function CurrentColors(): (p: Palette)
      reads this
      ensures p == PaletteOf(theme)
    {
      PaletteOf(theme)
    }

    method ToggleTheme()
      modifies this
      ensures theme == Toggled(old(theme))
    {
      theme := Toggled(theme);
    }
  }

  /** A freshly mounted provider toggled twice is light again, with the light colours. */
  method ToggleTwiceFromStart() returns (theme: Theme, colors: Palette)
    ensures theme == Light && colors == Colors
  {
    var provider := new ThemeProvider();
    provider.ToggleTheme();
    provider.ToggleTheme();
    theme, colors := provider.theme, provider.CurrentColors();
  }

  /** `useTheme` */
  function UseTheme(ctx: Option<ThemeProvider>): (r: Result<ThemeProvider, string>)
    ensures r.Ok? <==> ctx.Some?
    ensures r.Err? ==> r.error == "useTheme must be used within a ThemeProvider"
  {
    RequireProvider(ctx, "useTheme must be used within a ThemeProvider")
  }
}
