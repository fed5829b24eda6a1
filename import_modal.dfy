/**
 * The import dialog: a text area of colours, one per line, that replaces
 * the current colours when submitted. A line that does not start with `#`
 * gets one.
 */
module ImportModal {
  import opened Text
  import opened ColorMath
  import opened Wrappers
  import opened AppContext

  /**
   * The colours a submitted text becomes: one per line, each given a leading
   * `#`. The line's test, `color.substr(0, 1) !== '#'`, fails exactly for a
   * line starting with `#`, so each line becomes `WithHash(line)`, which
   * keeps such a line and prefixes any other, the empty line included.
   */
  function ImportedColors(text: string): (colors: seq<string>)
    ensures |colors| == |Split(text, '\n')| == CountChar(text, '\n') + 1
    ensures forall k :: 0 <= k < |colors| ==> colors[k] == WithHash(Split(text, '\n')[k])
  {
    var lines := Split(text, '\n');
    SplitCount(text, '\n');
    seq(|lines|, k requires 0 <= k < |lines| => WithHash(lines[k]))
  }

  /** A colour that can be written on one line of the text area and imported unchanged. */
  predicate Importable(color: string) {
    |color| >= 1 && color[0] == '#' && '\n' !in color
  }

  /** Writing importable colours one per line and importing them gives the same colours back. */
  lemma ImportRoundTrip(colors: seq<string>)
    requires |colors| >= 1
    requires forall k :: 0 <= k < |colors| ==> Importable(colors[k])
    ensures ImportedColors(Join(colors, '\n')) == colors
  {
    SplitJoin(colors, '\n');
  }

  /** Every imported colour is importable, so exporting and importing them again changes nothing. */
  lemma ImportIdempotent(text: string)
    ensures forall k :: 0 <= k < |ImportedColors(text)| ==> Importable(ImportedColors(text)[k])
    ensures ImportedColors(Join(ImportedColors(text), '\n')) == ImportedColors(text)
  {
    var colors := ImportedColors(text);
    var lines := Split(text, '\n');
    forall k | 0 <= k < |colors|
      ensures Importable(colors[k])
    {
      assert colors[k] == WithHash(lines[k]);
      assert '\n' !in lines[k];
      assert colors[k] == lines[k] || colors[k] == "#" + lines[k];
    }
    ImportRoundTrip(colors);
  }

  /** The dialog, with its own submitting flag; `isOpen` stands for the parent's flag that `closeModal` clears. */
  class ImportDialog {
    var formIsSubmitting: bool
    var isOpen: bool
    const store: Store

    constructor(store: Store)
      ensures this.store == store && !formIsSubmitting && isOpen
    {
      this.store := store;
      formIsSubmitting := false;
      isOpen := true;
    }

    /**
     * `onSubmit`, run once the form validates: the text is required and at
     * least six characters long. The colours are replaced, every other key
     * of the state is kept, and the dialog closes.
     */
    method OnSubmit(text: string)
      requires |text| >= 6
      modifies this, store
      ensures store.state == old(store.state).(colors := ImportedColors(text))
      ensures !formIsSubmitting && !isOpen
    {
      formIsSubmitting := true;
      var newColors := ImportedColors(text);
      store.SetState(Object(Empty.(colors := Some(newColors))));
      formIsSubmitting := false;
      isOpen := false;
    }
  }
}
