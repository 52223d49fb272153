/** The theme table of lib/config/themes.ts. */
module Themes {
  import opened Wrappers

  datatype Theme = Theme(name: string, displayLabel: string, description: string, icon: string)

  /** `themes`: the five themes in their display order. */
  const ThemeTable: seq<Theme> := [
    Theme("light", "Light", "Clean and bright", "\U{2600}\U{FE0F}"),
    Theme("dark", "Dark", "Easy on the eyes", "\U{1F319}"),
    Theme("ocean", "Ocean", "Deep blue waters", "\U{1F30A}"),
    Theme("forest", "Forest", "Natural greens", "\U{1F332}"),
    Theme("sunset", "Sunset", "Warm and vibrant", "\U{1F305}")
  ]

  /** The literal list `isValidTheme` searches. */
  const ValidThemeNames: seq<string> := ["light", "dark", "ocean", "forest", "sunset"]

  const DefaultTheme: string := "light"

  /** `isValidTheme`. */
  function IsValidTheme(theme: string): (valid: bool)
    ensures valid <==> exists i :: 0 <= i < |ThemeTable| && ThemeTable[i].name == theme
  {
    TableNamesAreValidNames();
    theme in ValidThemeNames
  }

  /** `Array.prototype.find` on the table: the first theme with that name. */
  function Find(table: seq<Theme>, name: string): (r: Option<Theme>)
    ensures r.None? <==> forall i :: 0 <= i < |table| ==> table[i].name != name
    ensures r.Some? ==> exists i :: 0 <= i < |table| && table[i] == r.value && r.value.name == name
                                 && forall j :: 0 <= j < i ==> table[j].name != name
    decreases |table|
  {
    if table == [] then None
    else if table[0].name == name then Some(table[0])
    else
      var r := Find(table[1..], name);
      assert forall i :: 1 <= i < |table| ==> table[i] == table[1..][i - 1];
      r
  }

  /** `getTheme`. */
  function GetTheme(name: string): (r: Option<Theme>)
    ensures r.Some? ==> r.value in ThemeTable && r.value.name == name
    ensures r.None? <==> forall t :: t in ThemeTable ==> t.name != name
  {
    Find(ThemeTable, name)
  }

  /** The table's names are exactly the valid names, in order, so no two
      themes share a name. */
  lemma TableNamesAreValidNames()
    ensures |ThemeTable| == |ValidThemeNames|
    ensures forall i :: 0 <= i < |ThemeTable| ==> ThemeTable[i].name == ValidThemeNames[i]
    ensures forall i, j :: 0 <= i < j < |ThemeTable| ==> ThemeTable[i].name != ThemeTable[j].name
  {
  }

  /** A theme name has an entry exactly when it is valid. */
  lemma GetThemeDefinedIffValid(name: string)
    ensures GetTheme(name).Some? <==> IsValidTheme(name)
  {
    TableNamesAreValidNames();
  }

  /** The default theme is valid and its entry is the first one. */
  lemma DefaultThemeIsValid()
    ensures IsValidTheme(DefaultTheme)
    ensures GetTheme(DefaultTheme) == Some(ThemeTable[0])
  {
  }
}
