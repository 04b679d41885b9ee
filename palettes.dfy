/** The values the palette editor works on. */
module Palettes {

  datatype Option<T> = None | Some(value: T)

  /** One swatch of a palette: the colour as the user typed it and its variable name. */
  datatype ColorEntry = ColorEntry(color: string, name: string)

  /** A saved palette: its name and its ordered swatches. */
  datatype Palette = Palette(name: string, colors: seq<ColorEntry>)

  /** The validation failures the editor reports to the user instead of changing state. */
  datatype EditError = EmptyName | EmptyPalette | NothingSelected

  datatype Outcome = Pass | Fail(error: EditError)
}
