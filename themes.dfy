/**
 * Theme switching, which both front-end scripts implement the same way:
 * the theme toggle button and the theme selector of the settings panel.
 */
module Themes {
  import opened JsValues

  const Dark: JsValue := Str("dark")
  const Light: JsValue := Str("light")
  const Auto: JsValue := Str("auto")

  /** The theme after pressing the toggle button: 'light' after 'dark', and
   *  'dark' after anything else (so an unexpected value is repaired). */
  function Toggled(theme: JsValue): (r: JsValue)
    ensures r == Dark || r == Light
    ensures r == Light <==> theme == Dark
  {
    if theme == Dark then Light else Dark
  }

  /** The theme after choosing `theme` in the selector: 'auto' follows the
   *  system preference, every other choice is taken verbatim. */
  function Resolved(theme: JsValue, prefersDark: bool): (r: JsValue)
    ensures r != Auto
    ensures theme != Auto ==> r == theme
    ensures theme == Auto ==> (r == Dark <==> prefersDark) && (r == Light <==> !prefersDark)
  {
    if theme == Auto then (if prefersDark then Dark else Light) else theme
  }

  /** Toggling twice restores the theme exactly when it was 'dark' or
   *  'light'; from any other value two toggles end on 'light'. */
  lemma ToggleTwice(theme: JsValue)
    ensures Toggled(Toggled(theme)) == theme <==> theme == Dark || theme == Light
    ensures theme != Dark && theme != Light ==> Toggled(Toggled(theme)) == Light
  {
  }

  /** Choosing the theme that is already resolved changes nothing. */
  lemma ResolvedIdempotent(theme: JsValue, prefersDark: bool)
    ensures Resolved(Resolved(theme, prefersDark), prefersDark) == Resolved(theme, prefersDark)
  {
  }
}
