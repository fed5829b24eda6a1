/**
 * The picker attached to one colour of the palette. While the user drags, it
 * keeps the colour locally and reports it to its item. The colour is written
 * to the palette only on a click outside the picker, which also closes it.
 */
module ColorPicker {
  import opened Wrappers
  import opened AppContext

  /** What the picker's change handler receives: the picker's result object, or a plain colour text. */
  datatype PickedColor =
    | PickerResult(hex: string)
    | PlainText(text: string)

  /** A picker result always carries a hex text. */
  predicate WellFormedPick(c: PickedColor) {
    c.PickerResult? ==> c.hex != ""
  }

  /** `color.hex || color`: the `hex` field when it is present, the argument itself otherwise. */
  function ChosenColor(c: PickedColor): (r: string)
    requires WellFormedPick(c)
    ensures c.PickerResult? ==> r == c.hex
    ensures c.PlainText? ==> r == c.text
  {
    match c
    case PickerResult(hex) => hex
    case PlainText(text) => text
  }

  /** The palette with the entry at `index` replaced by `value`. */
  function ReplaceAt(colors: seq<string>, index: nat, value: string): (r: seq<string>)
    requires index < |colors|
  {
    colors[index := value]
  }

  /** Only the entry at the index changes: the length and every other entry stay as they were. */
  lemma ReplaceAtKeepsOthers(colors: seq<string>, index: nat, value: string)
    requires index < |colors|
    ensures |ReplaceAt(colors, index, value)| == |colors|
    ensures ReplaceAt(colors, index, value)[index] == value
    ensures forall k :: 0 <= k < |colors| && k != index ==> ReplaceAt(colors, index, value)[k] == colors[k]
  {
  }

  /** Replacing an entry with the value it already holds changes nothing. */
  lemma ReplaceAtSame(colors: seq<string>, index: nat)
    requires index < |colors|
    ensures ReplaceAt(colors, index, colors[index]) == colors
  {
  }

  /** `{ ...prevState, colors: newColors }` as the updater of `commitColorChange`. */
  function CommitPatch(prev: AppState, index: nat, value: string): Patch
  {
    if index < |prev.colors| then Spread(prev).(colors := Some(ReplaceAt(prev.colors, index, value))) else Spread(prev)
  }

  /** The parent's `displayColorPicker`: which pickers are open. */
  class OpenFlags {
    var open: map<nat, bool>

    constructor()
      ensures open == map[]
    {
      open := map[];
    }

    /** `setDisplayColorPicker(prev => ({ ...prev, [index]: false }))`. */
    method Close(index: nat)
      modifies this
      ensures open == old(open)[index := false]
    {
      open := open[index := false];
    }
  }

  class Picker {
    const index: nat
    const store: Store
    /** The colour the parent passes in, the palette's entry at `index`. */
    var color: string
    var localColor: string

    constructor(index: nat, color: string, store: Store)
      ensures this.index == index && this.color == color && localColor == color && this.store == store
    {
      this.index := index;
      this.color := color;
      this.store := store;
      localColor := color;
    }

    /** The effect on `[color]`: a new colour from the parent resets the local one. */
    method SyncColor(newColor: string)
      modifies this
      ensures color == newColor && localColor == newColor
    {
      color := newColor;
      localColor := newColor;
    }

    /**
     * `commitColorChange(finalColor)`: writes the chosen colour at this
     * picker's index and changes no other key of the state.
     */
    method CommitColorChange(finalColor: PickedColor)
      requires WellFormedPick(finalColor)
      requires index < |store.state.colors|
      modifies store
      ensures store.state == old(store.state).(colors := ReplaceAt(old(store.state).colors, index, ChosenColor(finalColor)))
    {
      var value := ChosenColor(finalColor);
      var i := index;
      store.SetState(FromPrevious(prev => CommitPatch(prev, i, value)));
    }

    /**
     * `handleChange(color)`: the local colour becomes the chosen one, and
     * when the item listens (`hasListener`), the same index and colour are
     * reported to it.
     */
    method HandleChange(c: PickedColor, hasListener: bool) returns (report: Option<(nat, string)>)
      requires WellFormedPick(c)
      modifies this
      ensures localColor == ChosenColor(c) && color == old(color)
      ensures report == if hasListener then Some((index, localColor)) else None
    {
      var newColor := ChosenColor(c);
      localColor := newColor;
      if hasListener {
        report := Some((index, newColor));
      } else {
        report := None;
      }
    }

    /**
     * The document's `mousedown` handler. `outside` says the click landed
     * outside both the mounted picker and the item's button. Then the local
     * colour is committed if it differs from the parent's, and this picker's
     * open flag is cleared; any other click changes nothing.
     */
    method HandleClickOutside(flags: OpenFlags, outside: bool)
      requires outside && localColor != color ==> index < |store.state.colors|
      modifies store, flags
      ensures store.state ==
        if outside && old(localColor) != old(color)
        then old(store.state).(colors := ReplaceAt(old(store.state).colors, index, localColor))
        else old(store.state)
      ensures flags.open == if outside then old(flags.open)[index := false] else old(flags.open)
    {
      if outside {
        if localColor != color {
          CommitColorChange(PlainText(localColor));
        }
        flags.Close(index);
      }
    }
  }
}
