/**
 * The palette editor's module-level state and the handlers that change it: the palette
 * being built or edited, the selected swatch, the saved palette being edited, the
 * collection of saved palettes, and the swatch a drag started from.
 */
module Editor {
  import opened Text
  import opened Naming
  import opened Splice
  import opened Palettes
  import opened CssExport

  /** The click handler's new selection: the clicked index, or none when it was already selected. */
  function Toggle(selected: Option<nat>, index: nat): (r: Option<nat>)
    ensures r == Some(index) <==> selected != Some(index)
    ensures r.None? <==> selected == Some(index)
  {
    if selected == Some(index) then None else Some(index)
  }

  /** Clicking the same swatch twice restores the selection there was before. */
  lemma ToggleTwice(selected: Option<nat>, index: nat)
    ensures Toggle(Toggle(selected, index), index) == (if selected == Some(index) then selected else None)
  {
  }

  /** Starting from no selection (or from `index` selected), two clicks on `index` give the selection back. */
  lemma ToggleTwiceRestores(selected: Option<nat>, index: nat)
    requires selected.None? || selected == Some(index)
    ensures Toggle(Toggle(selected, index), index) == selected
  {
    ToggleTwice(selected, index);
  }

  class PaletteEditor {
    var currentColors: seq<ColorEntry>
    var selectedColorIndex: Option<nat>
    var editingIndex: Option<nat>
    var savedPalettes: seq<Palette>
    var dragStartIndex: Option<nat>

    /** A selected swatch is one of the current swatches. */
    ghost predicate Valid()
      reads this
    {
      selectedColorIndex.Some? ==> selectedColorIndex.value < |currentColors|
    }

    /** The saved palette being edited, if any, is one of the saved palettes. */
    ghost predicate EditTargetValid()
      reads this
    {
      editingIndex.Some? ==> editingIndex.value < |savedPalettes|
    }

    /**
     * Every saved palette is one `savePalette` could have stored: a non-empty trimmed name
     * and at least one swatch.
     */
    ghost predicate SavedPalettesValid()
      reads this
    {
      forall k :: 0 <= k < |savedPalettes| ==>
        savedPalettes[k].colors != [] && savedPalettes[k].name != [] && IsTrimmed(savedPalettes[k].name)
    }

    /** Page load: empty work in progress, and the collection read from storage. */
    constructor (stored: seq<Palette>)
      ensures Valid() && EditTargetValid()
      ensures currentColors == [] && savedPalettes == stored
      ensures selectedColorIndex.None? && editingIndex.None? && dragStartIndex.None?
    {
      currentColors := [];
      savedPalettes := stored;
      editingIndex := None;
      selectedColorIndex := None;
      dragStartIndex := None;
    }

    /**
     * `addColor` with the colour field's text as `rawInput`: a blank entry is ignored; otherwise
     * the trimmed text is appended as typed, named by the default-name rule for its position.
     */
    method AddColor(rawInput: string, toHex: string -> string)
      requires Valid()
      modifies this`currentColors
      ensures Valid()
      ensures AllWhitespace(rawInput) ==> currentColors == old(currentColors)
      ensures !AllWhitespace(rawInput) ==>
        currentColors == old(currentColors) + [ColorEntry(Trim(rawInput), AutoName(toHex, Trim(rawInput), |old(currentColors)|))]
    {
      var input := Trim(rawInput);
      if input == [] {
        return;
      }
      var index := |currentColors|;
      var name := AutoName(toHex, input, index);
      currentColors := currentColors + [ColorEntry(input, name)];
    }

    /** `updateColorName`: the swatch at `index` is renamed to the trimmed text; nothing else changes. */
    method UpdateColorName(index: nat, value: string)
      requires index < |currentColors|
      modifies this`currentColors
      ensures |currentColors| == |old(currentColors)|
      ensures currentColors[index] == ColorEntry(old(currentColors)[index].color, Trim(value))
      ensures forall j :: 0 <= j < |currentColors| && j != index ==> currentColors[j] == old(currentColors)[j]
    {
      var name := Trim(value);
      currentColors := currentColors[index := ColorEntry(currentColors[index].color, name)];
    }

    /** The click handler of the swatch at `index`: select it, or deselect it when it was selected. */
    method ClickColor(index: nat)
      requires Valid() && index < |currentColors|
      modifies this`selectedColorIndex
      ensures Valid()
      ensures selectedColorIndex == Toggle(old(selectedColorIndex), index)
    {
      selectedColorIndex := if selectedColorIndex == Some(index) then None else Some(index);
    }

    /**
     * The delete-selected button: with nothing selected it reports `NothingSelected` and changes
     * nothing; otherwise it removes exactly the selected swatch and clears the selection.
     */
    method DeleteSelected() returns (outcome: Outcome)
      requires Valid()
      modifies this`currentColors, this`selectedColorIndex
      ensures Valid()
      ensures old(selectedColorIndex).None? ==>
        outcome == Fail(NothingSelected) && currentColors == old(currentColors) && selectedColorIndex.None?
      ensures old(selectedColorIndex).Some? ==>
        outcome == Pass && selectedColorIndex.None?
        && currentColors == RemoveAt(old(currentColors), old(selectedColorIndex).value)
    {
      if selectedColorIndex.Some? {
        var k := selectedColorIndex.value;
        currentColors := currentColors[..k] + currentColors[k + 1..];
        selectedColorIndex := None;
        outcome := Pass;
      } else {
        outcome := Fail(NothingSelected);
      }
    }

    /** `dragStart`: remembers the swatch the drag began on. */
    method DragStart(index: nat)
      modifies this`dragStartIndex
      ensures dragStartIndex == Some(index)
    {
      dragStartIndex := Some(index);
    }

    /** `dragEnd`: forgets it again. */
    method DragEnd()
      modifies this`dragStartIndex
      ensures dragStartIndex.None?
    {
      dragStartIndex := None;
    }

    /**
     * `drop` onto the swatch at `index`: with no drag in progress, or onto the swatch the drag
     * began on, nothing changes; otherwise that swatch is moved to `index`. The selection index
     * is left as it was, so it now names whatever occupies that slot.
     */
    method Drop(index: nat)
      requires Valid() && index < |currentColors|
      requires dragStartIndex.Some? ==> dragStartIndex.value < |currentColors|
      modifies this`currentColors
      ensures Valid() && |currentColors| == |old(currentColors)|
      ensures selectedColorIndex == old(selectedColorIndex)
      ensures dragStartIndex.None? || dragStartIndex.value == index ==> currentColors == old(currentColors)
      ensures dragStartIndex.Some? && dragStartIndex.value != index ==>
        currentColors == Move(old(currentColors), dragStartIndex.value, index)
    {
      if dragStartIndex.None? || dragStartIndex.value == index {
        return;
      }
      var from := dragStartIndex.value;
      var moved := currentColors[from];
      currentColors := currentColors[..from] + currentColors[from + 1..];
      currentColors := currentColors[..index] + [moved] + currentColors[index..];
    }

    /**
     * `savePalette` with the palette-name field's text as `rawName`. A blank name is rejected
     * with `EmptyName`, then an empty palette with `EmptyPalette`; neither changes anything.
     * Otherwise the palette is stored at the edit target's index, overwriting the palette there
     * or, at the end of the collection, appending; with no edit target it is appended. The work
     * in progress is cleared, and a collection of well-formed palettes stays well-formed.
     */
    method SavePalette(rawName: string) returns (outcome: Outcome)
      requires Valid()
      requires !AllWhitespace(rawName) && currentColors != [] && editingIndex.Some? ==>
        editingIndex.value <= |savedPalettes|
      modifies this`currentColors, this`selectedColorIndex, this`editingIndex, this`savedPalettes
      ensures Valid()
      ensures old(SavedPalettesValid()) ==> SavedPalettesValid()
      ensures AllWhitespace(rawName) ==>
        outcome == Fail(EmptyName) && currentColors == old(currentColors) && savedPalettes == old(savedPalettes)
        && editingIndex == old(editingIndex) && selectedColorIndex == old(selectedColorIndex)
      ensures !AllWhitespace(rawName) && old(currentColors) == [] ==>
        outcome == Fail(EmptyPalette) && currentColors == old(currentColors) && savedPalettes == old(savedPalettes)
        && editingIndex == old(editingIndex) && selectedColorIndex == old(selectedColorIndex)
      ensures !AllWhitespace(rawName) && old(currentColors) != [] ==>
        outcome == Pass && currentColors == [] && editingIndex.None? && selectedColorIndex.None?
        && savedPalettes == (if old(editingIndex).Some?
                             then StoreAt(old(savedPalettes), old(editingIndex).value, Palette(Trim(rawName), old(currentColors)))
                             else old(savedPalettes) + [Palette(Trim(rawName), old(currentColors))])
    {
      var name := Trim(rawName);
      if name == [] {
        return Fail(EmptyName);
      }
      if |currentColors| == 0 {
        return Fail(EmptyPalette);
      }
      if editingIndex.Some? {
        savedPalettes := StoreAt(savedPalettes, editingIndex.value, Palette(name, currentColors));
        editingIndex := None;
      } else {
        savedPalettes := savedPalettes + [Palette(name, currentColors)];
      }
      currentColors := [];
      selectedColorIndex := None;
      outcome := Pass;
    }

    /** `cancelEdit`: leaves edit mode and empties the work in progress; the saved palettes stay. */
    method CancelEdit()
      modifies this`currentColors, this`selectedColorIndex, this`editingIndex
      ensures Valid()
      ensures currentColors == [] && editingIndex.None? && selectedColorIndex.None?
    {
      editingIndex := None;
      currentColors := [];
      selectedColorIndex := None;
    }

    /**
     * `deletePalette` as written: removes exactly saved palette `index`, the rest keeping their
     * order. The index of the palette being edited is not adjusted.
     */
    method DeletePalette(index: nat)
      requires index < |savedPalettes|
      modifies this`savedPalettes
      ensures savedPalettes == RemoveAt(old(savedPalettes), index)
      ensures editingIndex == old(editingIndex)
      ensures old(SavedPalettesValid()) ==> SavedPalettesValid()
    {
      savedPalettes := savedPalettes[..index] + savedPalettes[index + 1..];
    }

    /**
     * `deletePalette` corrected: removes saved palette `index` as above, and keeps the edit
     * target pointing at the same palette (one slot down when it came after `index`); when the
     * palette being edited is the one deleted, the work in progress becomes a new palette.
     */
    method DeletePaletteKeepingEdit(index: nat)
      requires EditTargetValid() && index < |savedPalettes|
      modifies this`savedPalettes, this`editingIndex
      ensures EditTargetValid()
      ensures old(SavedPalettesValid()) ==> SavedPalettesValid()
      ensures savedPalettes == RemoveAt(old(savedPalettes), index)
      ensures editingIndex == (if old(editingIndex) == Some(index) then None
                               else if old(editingIndex).Some? && old(editingIndex).value > index
                               then Some(old(editingIndex).value - 1)
                               else old(editingIndex))
      ensures old(editingIndex).Some? && old(editingIndex).value != index ==>
        editingIndex.Some? && savedPalettes[editingIndex.value] == old(savedPalettes)[old(editingIndex).value]
    {
      savedPalettes := savedPalettes[..index] + savedPalettes[index + 1..];
      if editingIndex == Some(index) {
        editingIndex := None;
      } else if editingIndex.Some? && editingIndex.value > index {
        editingIndex := Some(editingIndex.value - 1);
      }
    }

    /**
     * `loadPaletteForEditing`: the work in progress becomes a copy of saved palette `index`'s
     * swatches, that palette becomes the edit target and the selection is cleared.
     */
    method LoadPaletteForEditing(index: nat)
      requires index < |savedPalettes|
      modifies this`currentColors, this`editingIndex, this`selectedColorIndex
      ensures Valid() && EditTargetValid()
      ensures currentColors == savedPalettes[index].colors
      ensures editingIndex == Some(index) && selectedColorIndex.None?
    {
      currentColors := savedPalettes[index].colors;
      editingIndex := Some(index);
      selectedColorIndex := None;
    }

    /** The text `copyPaletteAsCSS` puts on the clipboard for saved palette `index`. */
    method PaletteCss(index: nat) returns (cssText: string)
      requires index < |savedPalettes|
      ensures cssText == ToCSS(savedPalettes[index].colors)
    {
      cssText := BuildCss(savedPalettes[index].colors);
    }
  }

  /**
   * Opening saved palette `k` and saving it unchanged under the name the editor pre-fills,
   * the palette's own name, leaves the saved collection as it was.
   */
  method EditRoundTrip(e: PaletteEditor, k: nat)
    requires e.Valid() && e.SavedPalettesValid() && k < |e.savedPalettes|
    modifies e
    ensures e.savedPalettes == old(e.savedPalettes)
    ensures e.currentColors == [] && e.editingIndex.None? && e.selectedColorIndex.None?
  {
    var name := e.savedPalettes[k].name;
    TrimNoop(name);
    e.LoadPaletteForEditing(k);
    var outcome := e.SavePalette(name);
  }

  /**
   * From an empty palette, adding a colour the host parser reads as `#f1f3e0` and then one it
   * reads as `#123456` names the first from the table and the second by its position.
   */
  method DefaultNamesScenario(toHex: string -> string, first: string, second: string) returns (names: seq<string>)
    requires first != [] && IsTrimmed(first) && second != [] && IsTrimmed(second)
    requires toHex(first) == "#f1f3e0" && toHex(second) == "#123456"
    ensures names == ["cream", "color-2"]
  {
    var e := new PaletteEditor([]);
    TrimNoop(first);
    TrimNoop(second);
    AutoNameScenario(toHex, first, second);
    e.AddColor(first, toHex);
    e.AddColor(second, toHex);
    names := [e.currentColors[0].name, e.currentColors[1].name];
  }

  /**
   * Saved palettes a, b, c; b is opened for editing; a is deleted; the edit is saved under
   * `name`. With `DeletePalette` as written the edit target still says slot 1, which now holds
   * c: the save overwrites c, which is lost, while the old b stays.
   */
  method StaleEditTargetOverwrites(a: Palette, b: Palette, c: Palette, name: string) returns (saved: seq<Palette>)
    requires b.colors != [] && name != [] && IsTrimmed(name)
    ensures saved == [b, Palette(name, b.colors)]
  {
    TrimNoop(name);
    var e := new PaletteEditor([a, b, c]);
    e.LoadPaletteForEditing(1);
    e.DeletePalette(0);
    assert e.savedPalettes == [b, c] && e.editingIndex == Some(1);
    var outcome := e.SavePalette(name);
    saved := e.savedPalettes;
  }

  /** The same steps with the corrected delete: b is updated in place and c survives. */
  method KeptEditTargetUpdates(a: Palette, b: Palette, c: Palette, name: string) returns (saved: seq<Palette>)
    requires b.colors != [] && name != [] && IsTrimmed(name)
    ensures saved == [Palette(name, b.colors), c]
  {
    TrimNoop(name);
    var e := new PaletteEditor([a, b, c]);
    e.LoadPaletteForEditing(1);
    e.DeletePaletteKeepingEdit(0);
    assert e.savedPalettes == [b, c] && e.editingIndex == Some(0);
    var outcome := e.SavePalette(name);
    saved := e.savedPalettes;
  }

  /**
   * Saved palettes a, b, c; b is opened for editing and then deleted itself; the edit is saved
   * under `name`. As written the edit target still says slot 1, which now holds c: the save
   * overwrites c.
   */
  method DeletedEditTargetOverwrites(a: Palette, b: Palette, c: Palette, name: string) returns (saved: seq<Palette>)
    requires b.colors != [] && name != [] && IsTrimmed(name)
    ensures saved == [a, Palette(name, b.colors)]
  {
    TrimNoop(name);
    var e := new PaletteEditor([a, b, c]);
    e.LoadPaletteForEditing(1);
    e.DeletePalette(1);
    assert e.savedPalettes == [a, c] && e.editingIndex == Some(1);
    var outcome := e.SavePalette(name);
    saved := e.savedPalettes;
  }

  /** The same steps with the corrected delete: editing ends with the deletion, the save appends, c survives. */
  method DeletedEditTargetAppends(a: Palette, b: Palette, c: Palette, name: string) returns (saved: seq<Palette>)
    requires b.colors != [] && name != [] && IsTrimmed(name)
    ensures saved == [a, c, Palette(name, b.colors)]
  {
    TrimNoop(name);
    var e := new PaletteEditor([a, b, c]);
    e.LoadPaletteForEditing(1);
    e.DeletePaletteKeepingEdit(1);
    assert e.savedPalettes == [a, c] && e.editingIndex.None?;
    var outcome := e.SavePalette(name);
    saved := e.savedPalettes;
  }

  /**
   * Saved palettes a, b; the last one, b, is opened and deleted; the edit is saved. The stale
   * edit target equals the new length, so the assignment appends: no hole appears.
   */
  method DeletedLastEditTargetAppends(a: Palette, b: Palette, name: string) returns (saved: seq<Palette>)
    requires b.colors != [] && name != [] && IsTrimmed(name)
    ensures saved == [a, Palette(name, b.colors)]
  {
    TrimNoop(name);
    var e := new PaletteEditor([a, b]);
    e.LoadPaletteForEditing(1);
    e.DeletePalette(1);
    assert e.savedPalettes == [a] && e.editingIndex == Some(1);
    var outcome := e.SavePalette(name);
    saved := e.savedPalettes;
  }
}
