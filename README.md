# Colour palette creator: the palette-editing core

This project models the in-memory palette editor of a browser colour-palette tool and proves
properties of it. The user builds a palette swatch by swatch. Each swatch is a colour, stored as
typed, plus a variable name. A new swatch gets a default name: a well-known colour takes its name
from a fixed table, and any other colour gets `color-<position>`. The user can rename, select,
delete and drag-reorder swatches. A palette can be saved under a name, either as a new palette or
over the saved palette being edited. Saved palettes can be opened for editing again or deleted,
and can be exported as a CSS `:root { --name: colour; }` block.

Modules, leaf first:

- `Text` (text.dfy): JavaScript's `trim`, with the ECMAScript whitespace and line-terminator set.
  Also the decimal text of a number as a template literal renders it, with its parse-back.
- `Palettes` (palettes.dfy): swatches, palettes, `Option`, and the validation errors
  `EmptyName`, `EmptyPalette` and `NothingSelected`, which the source reports with `alert`.
- `Naming` (naming.dfy): the 14-entry `commonColors` table and `autoNameColor`. The browser's
  colour parser `toHex` is a parameter `toHex: string -> string` about which nothing is assumed.
- `Splice` (splice.dfy): the three in-range uses of `Array.prototype.splice`: remove one,
  insert one, and the remove-then-insert move of drag and drop.
- `CssExport` (css.dfy): the text `copyPaletteAsCSS` builds. `ToCSS` is the specification; the
  `forEach` loop is the method `BuildCss`, proved equal to it.
- `Editor` (editor.dfy): the module-level state as the class `PaletteEditor`. Its fields are
  `currentColors`, `selectedColorIndex`, `editingIndex`, `savedPalettes` and `dragStartIndex`, and
  each event handler is a method that says exactly what the new state is. The module ends with
  client methods that chain handlers: an open-then-save round trip, a naming scenario, and the
  stale-edit-target scenario of the finding below.

Inputs that come from the page in the source are parameters here: the text of the colour field
(`addColor`), the text of the palette-name field (`savePalette`), the indices captured by the
rendered swatches' handlers, and the palettes read from storage at page load (the constructor).
Where the source relies on the page for sensible indices, the model states it as a `requires`:
swatch indices are in range for rename, click and drop, and saved-palette indices are in range
for open, delete and export.

## Model

| member | source | states |
|---|---|---|
| Text.IsWhitespace | functions.js:37 | the characters `trim` removes: tab, line feed, vertical tab, form feed, carriage return, space, no-break space, the other space separators (U+1680, U+2000-U+200A, U+202F, U+205F, U+3000), the line and paragraph separators and the byte-order mark |
| Text.WhitespaceEdges | functions.js:37 | no-break space, the byte-order mark and the line separator are trimmed; zero-width space, next-line (U+0085) and the Mongolian vowel separator are not |
| Text.TextStart | functions.js:37 | the index `trim` starts keeping from is the first non-whitespace character, or the end; everything before it is whitespace |
| Text.TextEnd | functions.js:37 | the index `trim` stops keeping at follows the last non-whitespace character; everything after it is whitespace |
| Text.Trim | functions.js:37-38 | the trimmed text is empty exactly when the input is all whitespace, and otherwise neither starts nor ends with whitespace |
| Text.TrimSlice | functions.js:37 | the trimmed text is the piece of the input between an all-whitespace prefix and an all-whitespace suffix |
| Text.TrimNoop | functions.js:47 | text that neither starts nor ends with whitespace is left unchanged by trimming |
| Text.TrimIdempotent | functions.js:62 | trimming an already trimmed text changes nothing |
| Text.NatToString | functions.js:33 | the decimal text of a number is a non-empty string of digits with no leading zero |
| Text.NatToStringRoundTrip | functions.js:33 | reading the decimal text of `n` back gives `n` |
| Text.NatToStringInjective | functions.js:33 | different numbers have different decimal texts |
| Naming.CommonColorsShape | functions.js:6-22 | every key of the 14-entry table is `#` and six lower-case hex digits, the form the parser produces, and every name in it is non-empty |
| Naming.PositionalName | functions.js:33 | the fallback name starts with `color-` and has something after it |
| Naming.PositionalNameDigits | functions.js:33 | after `color-` come decimal digits with no leading zero that read back as the 1-based position, which fixes the name as `color-<index+1>` |
| Naming.PositionalNameInjective | functions.js:33 | swatches at different positions get different fallback names |
| Naming.AutoName | functions.js:30-34 | when the parsed colour is a key of the table the name is the table's name for it; otherwise it is `color-<index+1>` |
| Naming.TableNamesNotPositional | functions.js:6-22 | no name in the table has the form of a fallback name |
| Naming.AutoNameHitIff | functions.js:30-34 | the default name is one of the table's names if and only if the parsed colour is in the table |
| Naming.AutoNameNonEmpty | functions.js:30-34 | a default name is never empty |
| Naming.AutoNameScenario | functions.js:30-34 | for any parser, a colour it reads as `#f1f3e0` at position 0 is named `cream`, and one it reads as `#123456` at position 1 is named `color-2` |
| Splice.StoreAt | functions.js:67 | `a[k] = x` for `k` at most the length: element `k` becomes `x` and every other element stays; below the length the length is kept, at the length `x` is appended |
| Splice.RemoveAt | functions.js:52 | removing index `k` shortens the sequence by one; elements before `k` stay, and later ones move down one slot |
| Splice.RemoveAtMultiset | functions.js:90 | removing index `k` takes exactly one occurrence of `s[k]` out of the multiset |
| Splice.InsertAt | functions.js:143 | inserting at `k` lengthens the sequence by one with the new element at `k`; earlier elements stay, and later ones move up one slot |
| Splice.InsertAtMultiset | functions.js:143 | inserting adds exactly one occurrence of the element to the multiset |
| Splice.RemoveInsert | functions.js:142-143 | removing what was just inserted at `k` gives the sequence back |
| Splice.InsertRemove | functions.js:142-143 | re-inserting the removed element at its old index gives the sequence back |
| Splice.Move | functions.js:142-143 | a move keeps the length and puts the moved element at index `to`; with the moved element taken out, before and after are the same sequence, so all other elements keep their relative order |
| Splice.MovePermutes | functions.js:142-143 | a move is a permutation: same multiset |
| Splice.MoveSelf | functions.js:141 | moving an element onto its own index changes nothing, so the source's guard for equal indices does not change the result |
| Splice.MoveInverse | functions.js:142-143 | moving from `to` back to `from` undoes a move |
| Splice.MoveAt | functions.js:142-143 | where each element ends up: the moved one at `to`, the ones strictly between shifted one slot towards `from`, the rest in place |
| CssExport.VarName | functions.js:110 | the property name is `--` and the swatch's name, or `--color-<i+1>` when the name is empty |
| CssExport.CssLine | functions.js:111 | the line of a swatch: two spaces, its property name, `: `, its colour as typed, `;` and a line break |
| CssExport.Lines | functions.js:109-111 | what the loop appends for the first `n` swatches: `line(colors[k], k)` for each `k < n`, in palette order, where the line function is `CssLine` for the export |
| CssExport.Body | functions.js:109-112 | the lines of all the swatches |
| CssExport.ToCSS | functions.js:108-113 | the exported text: the `:root {` header line, the swatch lines, and `}` |
| CssExport.ToCssShape | functions.js:108-113 | the export starts with `:root {` and a line break, and ends with `}` |
| CssExport.LinesStep | functions.js:109-111 | one more round of the loop appends the next swatch's line after the text built so far |
| CssExport.BuildCss | functions.js:108-113 | the loop that appends one line per swatch yields exactly `ToCSS` of the swatches |
| CssExport.BodyAppend | functions.js:109-111 | one more swatch adds exactly one more line at the end, `  --<name or color-(i+1)>: <colour>;`, with `i` its 0-based position |
| CssExport.LinesPrefix | functions.js:109-111 | the first `n` lines depend only on the first `n` swatches, for any line function |
| CssExport.LineHasOneNewline | functions.js:110-111 | a swatch whose name and colour contain no line break contributes exactly one line |
| CssExport.LinesLineCount | functions.js:109-112 | when each of the first `n` lines holds one line break, together they hold exactly `n` |
| CssExport.BodyLineCount | functions.js:109-112 | the swatch lines hold exactly one line break per swatch |
| CssExport.ToCssLineCount | functions.js:108-113 | with no line break inside names or colours, the export holds exactly one line break per swatch plus the header's |
| CssExport.ExampleNamedLine | functions.js:110-111 | the named swatch `red` at position 0 produces the line `  --red: #ff0000;` |
| CssExport.ExampleUnnamedLine | functions.js:110-111 | an unnamed swatch at 0-based position 1 falls back to `  --color-2: #00ff00;` |
| CssExport.ExampleBody | functions.js:109-112 | the two lines of that palette come in palette order |
| CssExport.ToCssExample | functions.js:108-113 | that two-swatch palette exports as the header, the `--red` line, the `--color-2` line and `}` |
| Editor.Toggle | functions.js:165 | the click selects the clicked index exactly when it was not already selected, and clears the selection exactly when it was |
| Editor.ToggleTwice | functions.js:165 | two clicks on `i` restore a selection of `i`, and otherwise leave nothing selected |
| Editor.ToggleTwiceRestores | functions.js:165 | from no selection, or from `i` selected, two clicks on `i` give back the prior selection |
| Editor.PaletteEditor.SavedPalettesValid | functions.js:62-70 | every saved palette has a non-empty trimmed name and at least one swatch, as `savePalette` checks before storing |
| Editor.PaletteEditor.constructor | functions.js:1-4 | at load the work in progress is empty, nothing is selected or edited, and the saved palettes are those read from storage |
| Editor.PaletteEditor.AddColor | functions.js:36-44 | all-whitespace input leaves the swatches unchanged; otherwise exactly one swatch is appended: the trimmed input as typed, not its hex form, named `AutoName` of it at the old length |
| Editor.PaletteEditor.UpdateColorName | functions.js:46-48 | only the name of swatch `i` changes, to the trimmed text; its colour, the other swatches and the length stay |
| Editor.PaletteEditor.ClickColor | functions.js:163-167 | the new selection is `Toggle` of the old one, and the selection stays a valid swatch index |
| Editor.PaletteEditor.DeleteSelected | functions.js:50-59 | with nothing selected it fails with `NothingSelected` and changes nothing; otherwise it removes exactly the selected swatch and clears the selection |
| Editor.PaletteEditor.DragStart | functions.js:136 | the drag source becomes the swatch the drag started on |
| Editor.PaletteEditor.DragEnd | functions.js:137 | the drag source is cleared |
| Editor.PaletteEditor.Drop | functions.js:139-145 | no drag source, or a drop on the source, changes nothing; otherwise the swatches become `Move(old, source, target)`; the selection index is not touched |
| Editor.PaletteEditor.SavePalette | functions.js:61-79 | a blank name fails with `EmptyName`, then an empty palette with `EmptyPalette`, with no change; on success the palette is stored at the edit target's index with `StoreAt` (overwriting below the length, appending at it) or appended when there is no edit target, the work in progress and both indices are cleared, and well-formed saved palettes stay well-formed |
| Editor.PaletteEditor.CancelEdit | functions.js:81-87 | the swatches are emptied and both indices cleared; the saved palettes are untouched |
| Editor.PaletteEditor.DeletePalette | functions.js:89-93 | as written: removes exactly saved palette `k`, keeps the rest in order, and leaves the edit target index as it was |
| Editor.PaletteEditor.DeletePaletteKeepingEdit | functions.js:89-93 | corrected: removes exactly saved palette `k`, and the edit target still names the same palette, or is cleared when that palette was deleted |
| Editor.PaletteEditor.LoadPaletteForEditing | functions.js:95-103 | the swatches become a copy of saved palette `k`'s swatches, `k` becomes the edit target and the selection is cleared |
| Editor.PaletteEditor.PaletteCss | functions.js:105-113 | the exported text of saved palette `k` is `ToCSS` of its swatches |
| Editor.EditRoundTrip | functions.js:61-103 | when every saved palette is one a save could store, opening saved palette `k` and saving it under its own name, which the page pre-fills, leaves the saved palettes as they were |
| Editor.DefaultNamesScenario | functions.js:36-44 | from an empty palette, adding a trimmed colour the parser reads as `#f1f3e0` and then one it reads as `#123456` gives the names `cream` and `color-2` |
| Editor.StaleEditTargetOverwrites | functions.js:89-93 | for any palettes a, b, c and trimmed name: saved [a, b, c], open b, delete a, save under the name: the result is [b, b's swatches under the name]; c is overwritten |
| Editor.KeptEditTargetUpdates | functions.js:89-93 | the same steps with the corrected delete give [b's swatches under the name, c] |
| Editor.DeletedEditTargetOverwrites | functions.js:89-93 | saved [a, b, c], open b, delete b itself, save under the name: the result is [a, b's swatches under the name]; c is overwritten |
| Editor.DeletedEditTargetAppends | functions.js:89-93 | the same steps with the corrected delete end editing, so the save appends: [a, c, b's swatches under the name] |
| Editor.DeletedLastEditTargetAppends | functions.js:66-70 | saved [a, b], open b, delete b, save: the stale edit target equals the new length, so the assignment appends and the result is [a, b's swatches under the name] |

## Left out

- The colour parser `toHex` (functions.js:24-28) draws on a browser canvas. It is an arbitrary function parameter, so every property holds for any parser. Its lower-casing is part of that function.
- Looking up inherited object properties in `commonColors`: the table is a plain object, so a key such as `constructor` would be found. A canvas serialisation is never such a key, so the table is modelled as a map of its 14 own entries. The source tests the looked-up value for truthiness; every value in the table is non-empty, so that test is the same as a membership test.
- Persistence is not modelled: reading `localStorage` at load (the constructor takes the palettes read), the writes after save and delete, and the JSON parsing. The JSON deep copy in `loadPaletteForEditing` and the spread copy in `savePalette` are value semantics here, because sequences of datatype values cannot alias.
- The clipboard write, its promise, `fallbackCopy` and their notifications (functions.js:115-132) are asynchronous host I/O. `PaletteCss` returns the text that would be copied.
- `alert` calls become the returned `Outcome` values `Fail(EmptyName)`, `Fail(EmptyPalette)` and `Fail(NothingSelected)`.
- Rendering is not modelled: `renderCurrentPalette`, `renderSavedPalettes`, the hover handlers, the `dragging` CSS class, `preventDefault` and `stopPropagation`. It is a projection of the state modelled here.
- Reading and clearing the colour field and the palette-name field are not modelled. The fields' text is a parameter. `loadPaletteForEditing` pre-filling the name field with the palette's name is reflected only in `Editor.EditRoundTrip`, which saves under that name.
- Out-of-range indices are not modelled; the page only passes indices of rendered swatches and palettes, so the model requires them in range. In JavaScript they would fail in different ways: `updateColorName` throws a TypeError on `currentColors[index].name` (functions.js:47); `loadPaletteForEditing` and `copyPaletteAsCSS` throw reading `palette.name` or `palette.colors` (functions.js:96-97, 107-109); `drop` from an out-of-range source inserts `undefined` (functions.js:142-143); `deletePalette` past the end is a no-op splice (functions.js:90).
- Editor.PaletteEditor.SavePalette: requires the edit target to be at most the length of the saved palettes when a save succeeds. An edit target equal to the length, reached by opening the last palette and deleting it, makes the assignment at functions.js:67 append, and that is modelled. An edit target beyond the length, reached for example by opening palette 2 of three and deleting two earlier ones, would leave a hole in the array, which a sequence cannot represent.
- Editor.ToggleTwice: the promise that two clicks restore the prior selection holds only from no selection or from `i` selected. From another index `j` two clicks on `i` leave nothing selected, and the lemma states exactly that.
- JavaScript strings are UTF-16 code units; here they are sequences of Unicode scalar values. Only `trim` looks at characters, and every character it removes is a single code unit.

## Findings

| source | as written | input that shows it | evidently intended | confidence | as-written member | corrected member |
|---|---|---|---|---|---|---|
| functions.js:89-93 | `deletePalette` removes a saved palette without adjusting `editingIndex`, so the index of the palette being edited goes stale | saved [a, b, c]; open b for editing (index 1); delete a; save: slot 1 now holds c, so c is overwritten and the old b is kept. Deleting b itself instead of a also overwrites c | the edit target keeps naming the palette that was opened, or editing ends when that palette is deleted | high; not executed | Editor.StaleEditTargetOverwrites | Editor.PaletteEditor.DeletePaletteKeepingEdit |

`Editor.PaletteEditor.DeletePalette` models the handler as written and `Editor.StaleEditTargetOverwrites` exhibits the lost palette. `Editor.PaletteEditor.DeletePaletteKeepingEdit` is the corrected handler. It keeps `EditTargetValid()`, so a later save overwrites the intended palette, as `Editor.KeptEditTargetUpdates` shows for the same steps. Deleting the palette being edited is a second form of the stale edit target: `Editor.DeletedEditTargetOverwrites` shows the as-written save overwriting c, and `Editor.DeletedEditTargetAppends` shows the corrected delete ending the edit so that the save appends instead.
