/**
 * The save dialog. Submitting the name of the selected palette overwrites
 * that palette's colours with the current ones; any other name appends a
 * new palette with a fresh id and selects it.
 */
module SaveModal {
  import opened Wrappers
  import opened Entities
  import opened AppContext

  /** `palettes[paletteIndex] || {}`: the palette at the index, if there is one. */
  function SelectedPalette(palettes: seq<Palette>, paletteIndex: int): (p: Option<Palette>)
    ensures p.Some? <==> 0 <= paletteIndex < |palettes|
    ensures p.Some? ==> p.value == palettes[paletteIndex]
  {
    if 0 <= paletteIndex < |palettes| then Some(palettes[paletteIndex]) else None
  }

  /** The submitted name is the selected palette's own name, so the palette is overwritten. */
  predicate Overwrites(s: AppState, paletteIndex: int, name: string) {
    var palette := SelectedPalette(s.palettes, paletteIndex);
    palette.Some? && name == palette.value.name
  }

  /** The state after submitting `name`, with `newId` the id a new palette would get. */
  function Saved(s: AppState, paletteIndex: int, name: string, newId: string): (t: AppState)
    ensures t == s.(palettes := t.palettes, selectedPaletteId := t.selectedPaletteId)
    ensures Overwrites(s, paletteIndex, name) ==>
      |t.palettes| == |s.palettes| && t.palettes[paletteIndex].colors == s.colors &&
      t.selectedPaletteId == s.selectedPaletteId
    ensures !Overwrites(s, paletteIndex, name) ==>
      |t.palettes| == |s.palettes| + 1 && t.palettes[|s.palettes|] == Palette(s.colors, newId, name) &&
      t.selectedPaletteId == newId
    ensures forall i :: 0 <= i < |s.palettes| && i != paletteIndex ==> t.palettes[i] == s.palettes[i]
  {
    if Overwrites(s, paletteIndex, name) then
      s.(palettes := s.palettes[paletteIndex := s.palettes[paletteIndex].(colors := s.colors)])
    else
      s.(palettes := s.palettes + [Palette(s.colors, newId, name)], selectedPaletteId := newId)
  }

  /** Overwriting keeps every palette in place, and the selected one keeps its id and name and takes the current colours. */
  lemma SaveOverwrites(s: AppState, paletteIndex: int, name: string, newId: string)
    requires Overwrites(s, paletteIndex, name)
    ensures var t := Saved(s, paletteIndex, name, newId);
      |t.palettes| == |s.palettes| &&
      t.palettes[paletteIndex] == Palette(s.colors, s.palettes[paletteIndex].id, name) &&
      (forall i :: 0 <= i < |s.palettes| && i != paletteIndex ==> t.palettes[i] == s.palettes[i]) &&
      t == s.(palettes := t.palettes)
  {
  }

  /** Any other name appends a palette of the current colours under a new id and selects it. */
  lemma SaveAppends(s: AppState, paletteIndex: int, name: string, newId: string)
    requires !Overwrites(s, paletteIndex, name)
    ensures var t := Saved(s, paletteIndex, name, newId);
      |t.palettes| == |s.palettes| + 1 &&
      t.palettes[..|s.palettes|] == s.palettes &&
      t.palettes[|s.palettes|] == Palette(s.colors, newId, name) &&
      t.selectedPaletteId == newId &&
      t == s.(palettes := t.palettes, selectedPaletteId := newId)
  {
    var t := Saved(s, paletteIndex, name, newId);
    assert t.palettes[..|s.palettes|] == s.palettes;
  }

  /** A name that no palette is at the index for (the lookup found nothing) always appends. */
  lemma SaveWithoutSelection(s: AppState, paletteIndex: int, name: string, newId: string)
    requires !(0 <= paletteIndex < |s.palettes|)
    ensures Saved(s, paletteIndex, name, newId).palettes == s.palettes + [Palette(s.colors, newId, name)]
  {
  }

  /** After saving, some palette carries the submitted name and the current colours, and the colours are kept. */
  lemma SaveStoresColors(s: AppState, paletteIndex: int, name: string, newId: string)
    ensures var t := Saved(s, paletteIndex, name, newId);
      t.colors == s.colors &&
      exists i :: 0 <= i < |t.palettes| && t.palettes[i].name == name && t.palettes[i].colors == s.colors
  {
    var t := Saved(s, paletteIndex, name, newId);
    if Overwrites(s, paletteIndex, name) {
      assert t.palettes[paletteIndex].name == name;
    } else {
      assert t.palettes[|s.palettes|].name == name;
    }
  }

  /** No two palettes share an id. */
  predicate DistinctIds(palettes: seq<Palette>) {
    forall i, j :: 0 <= i < j < |palettes| ==> palettes[i].id != palettes[j].id
  }

  /** A fresh id keeps the palette ids distinct; overwriting never changes an id. */
  lemma SaveKeepsIdsDistinct(s: AppState, paletteIndex: int, name: string, newId: string)
    requires DistinctIds(s.palettes)
    requires forall i :: 0 <= i < |s.palettes| ==> s.palettes[i].id != newId
    ensures DistinctIds(Saved(s, paletteIndex, name, newId).palettes)
  {
    var t := Saved(s, paletteIndex, name, newId);
    forall i, j | 0 <= i < j < |t.palettes|
      ensures t.palettes[i].id != t.palettes[j].id
    {
      if Overwrites(s, paletteIndex, name) {
        assert t.palettes[i].id == s.palettes[i].id && t.palettes[j].id == s.palettes[j].id;
      } else if j == |s.palettes| {
        assert t.palettes[i] == s.palettes[i];
      } else {
        assert t.palettes[i] == s.palettes[i] && t.palettes[j] == s.palettes[j];
      }
    }
  }

  /** The dialog; `isOpen` stands for the parent's flag that `closeModal` clears. */
  class SaveDialog {
    var formIsSubmitting: bool
    var isOpen: bool
    const store: Store

    constructor(store: Store)
      ensures this.store == store && !formIsSubmitting && isOpen
    {
      this.store := store;
      formIsSubmitting := false;
      isOpen := true;
    }

    /**
     * `onSubmit`, run once the form validates (the name is required and at
     * least one character long). `paletteIndex` is what the lookup of the
     * selected id among the palettes returned, and `newId` what `uuid()`
     * returns when a palette is appended.
     */
    method OnSubmit(name: string, paletteIndex: int, newId: string)
      requires |name| >= 1
      modifies this, store
      ensures store.state == Saved(old(store.state), paletteIndex, name, newId)
      ensures !formIsSubmitting && !isOpen
    {
      formIsSubmitting := true;
      var s := store.state;
      var palette := SelectedPalette(s.palettes, paletteIndex);
      if palette.Some? && name == palette.value.name {
        var newPalettes := s.palettes;
        newPalettes := newPalettes[paletteIndex := newPalettes[paletteIndex].(colors := s.colors)];
        store.SetState(Object(Empty.(palettes := Some(newPalettes))));
      } else {
        var newPalettes := s.palettes + [Palette(s.colors, newId, name)];
        store.SetState(Object(Empty.(palettes := Some(newPalettes), selectedPaletteId := Some(newId))));
      }
      isOpen := false;
      formIsSubmitting := false;
    }
  }
}
