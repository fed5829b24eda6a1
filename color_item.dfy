/**
 * One colour of the palette as the list shows it: its drag id, its code
 * label, the colour shown while its picker is being dragged, and the control
 * that removes it.
 */
module ColorItem {
  import opened Wrappers
  import opened Text
  import ColorMath
  import opened AppContext
  import ColorPicker

  /** `colors.splice(index, 1)` on a copy: the entry at `index` is dropped; past the end nothing is. */
  function RemoveAt(colors: seq<string>, index: nat): (r: seq<string>)
    ensures index >= |colors| ==> r == colors
  {
    if index < |colors| then colors[..index] + colors[index + 1..] else colors
  }

  /** Exactly the entry at `index` goes; the others keep their order. */
  lemma RemoveAtDropsOne(colors: seq<string>, index: nat)
    requires index < |colors|
    ensures |RemoveAt(colors, index)| == |colors| - 1
    ensures forall k :: 0 <= k < index ==> RemoveAt(colors, index)[k] == colors[k]
    ensures forall k :: index <= k < |colors| - 1 ==> RemoveAt(colors, index)[k] == colors[k + 1]
    ensures multiset(RemoveAt(colors, index)) + multiset{colors[index]} == multiset(colors)
  {
    var r := RemoveAt(colors, index);
    assert colors == colors[..index] + [colors[index]] + colors[index + 1..];
  }

  /** The remove control shows only for a palette of more than one colour, so removing never empties it. */
  lemma RemoveNeverEmpties(colors: seq<string>, index: nat)
    requires |colors| > 1
    ensures |RemoveAt(colors, index)| >= 1
  {
  }

  /** `removeItem({ index })`: the colours lose the entry at `index` and no other key changes. */
  method RemoveItem(store: Store, index: nat)
    modifies store
    ensures store.state == old(store.state).(colors := RemoveAt(old(store.state).colors, index))
  {
    store.SetState(FromPrevious(prev => Spread(prev).(colors := Some(RemoveAt(prev.colors, index)))));
  }

  /** `` `color-${index}-${color.replace('#', '')}` ``. */
  function DraggableId(index: nat, color: string): (id: string)
    ensures |id| >= 7 + |Decimal(index)|
    ensures id[..6] == "color-" && id[6..6 + |Decimal(index)|] == Decimal(index) && id[6 + |Decimal(index)|] == '-'
    ensures |color| > 0 && color[0] == '#' ==> id[7 + |Decimal(index)|..] == color[1..]
    ensures '#' !in color ==> id[7 + |Decimal(index)|..] == color
  {
    "color-" + Decimal(index) + "-" + RemoveFirst(color, '#')
  }

  /** Digits, a dash and a rest: the digits end at the first dash, so both parts are recovered. */
  lemma DigitsThenDash(x: string, a: string, y: string, b: string)
    requires forall i :: 0 <= i < |x| ==> IsDecimalDigit(x[i])
    requires forall i :: 0 <= i < |y| ==> IsDecimalDigit(y[i])
    requires x + "-" + a == y + "-" + b
    ensures x == y && a == b
  {
    var l := x + "-" + a;
    if |x| < |y| {
      DashAt(x, a, y, b, |x|);
      assert false;
    } else if |y| < |x| {
      DashAt(y, b, x, a, |y|);
      assert false;
    }
    assert x == l[..|x|];
    assert a == l[|x| + 1..];
  }

  /** Position `k` holds the dash on one side and a digit on the other. */
  lemma DashAt(x: string, a: string, y: string, b: string, k: nat)
    requires forall i :: 0 <= i < |y| ==> IsDecimalDigit(y[i])
    requires k == |x| < |y|
    ensures (x + "-" + a)[k] == '-' && IsDecimalDigit((y + "-" + b)[k])
  {
    assert (y + "-" + b)[k] == y[k];
  }

  lemma Regroup(p: string, x: string, a: string)
    ensures p + x + "-" + a == p + (x + "-" + a)
  {
  }

  /** Equal texts with a common prefix are equal after it. */
  lemma DropPrefix(p: string, u: string, v: string)
    requires p + u == p + v
    ensures u == v
  {
    assert u == (p + u)[|p|..];
  }

  /** Two items have the same drag id only at the same index and for the same colour (up to its first `#`). */
  lemma DraggableIdInjective(i: nat, c: string, j: nat, d: string)
    requires DraggableId(i, c) == DraggableId(j, d)
    ensures i == j && RemoveFirst(c, '#') == RemoveFirst(d, '#')
  {
    var x, a := Decimal(i), RemoveFirst(c, '#');
    var y, b := Decimal(j), RemoveFirst(d, '#');
    Regroup("color-", x, a);
    Regroup("color-", y, b);
    DropPrefix("color-", x + "-" + a, y + "-" + b);
    DigitsThenDash(x, a, y, b);
    DecimalInjective(i, j);
  }

  /** `displayColor.substr(1).toUpperCase()`. */
  function CodeLabel(displayColor: string): (code: string)
    ensures |code| == if |displayColor| >= 1 then |displayColor| - 1 else 0
    ensures forall k :: 0 <= k < |code| ==> code[k] == UpperChar(displayColor[k + 1])
  {
    ToUpperCase(if |displayColor| >= 1 then displayColor[1..] else "")
  }

  /** For a canonical colour the label is its six digits in upper case: lowering them and adding `#` gives the colour back. */
  lemma CodeLabelRoundTrip(color: string)
    requires ColorMath.IsCanonicalHex(color)
    ensures |CodeLabel(color)| == 6
    ensures "#" + ToLowerCase(CodeLabel(color)) == color
  {
    var code := CodeLabel(color);
    var back := "#" + ToLowerCase(code);
    forall k | 0 <= k < 7
      ensures back[k] == color[k]
    {
      if k > 0 {
        assert code[k - 1] == UpperChar(color[k]);
        assert ColorMath.IsLowerHexDigit(color[k]);
      }
    }
  }

  class Item {
    const index: nat
    /** The colour the list passes in, the palette's entry at `index`. */
    var color: string
    /** The colour shown, which follows the picker while it is dragged. */
    var displayColor: string

    constructor(index: nat, color: string)
      ensures this.index == index && this.color == color && displayColor == color
    {
      this.index := index;
      this.color := color;
      displayColor := color;
    }

    /** The drag id comes from the palette's colour, not the one shown, so dragging the picker keeps it. */
    function Id(): string
      reads this
    {
      DraggableId(index, color)
    }

    function Label(): string
      reads this
    {
      CodeLabel(displayColor)
    }

    /** The effect on `[color]`: a new colour from the palette is shown at once. */
    method SyncColor(newColor: string)
      modifies this
      ensures color == newColor && displayColor == newColor
    {
      color := newColor;
      displayColor := newColor;
    }

    /** `handleLocalColorChange(colorIndex, newColor)`: only a report for this item's index changes what is shown. */
    method HandleLocalColorChange(colorIndex: nat, newColor: string)
      modifies this
      ensures displayColor == if colorIndex == index then newColor else old(displayColor)
      ensures color == old(color) && Id() == old(Id())
    {
      if colorIndex == index {
        displayColor := newColor;
      }
    }

    /**
     * A change in this item's own picker: the picker reports to the item,
     * which then shows the picked colour, while the drag id stays the same.
     */
    method PickerChanged(picker: ColorPicker.Picker, c: ColorPicker.PickedColor)
      requires ColorPicker.WellFormedPick(c)
      requires picker.index == index
      modifies this, picker
      ensures displayColor == picker.localColor == ColorPicker.ChosenColor(c)
      ensures Id() == old(Id())
    {
      var report := picker.HandleChange(c, true);
      HandleLocalColorChange(report.value.0, report.value.1);
    }
  }
}
