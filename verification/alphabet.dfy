/**
 * The first-letter selector (src/FilterCenter.jsx): an "All" button and one
 * button per letter, the selected button kept in component state, and every
 * click reported to the parent.
 */
module Alphabet {
  import opened Options

  /** The letter buttons: `"0"`, then `"A"` to `"Z"`. */
  function Letters(): (ls: seq<string>)
    ensures |ls| == 27
    ensures ls[0] == "0" && ls[1] == "A" && ls[26] == "Z"
    ensures forall k :: 1 <= k < 27 ==> ls[k] == [('A' as int + k - 1) as char]
  {
    ["0"] + seq(26, k requires 0 <= k < 26 => [('A' as int + k) as char])
  }

  /** Every button on the bar: the separate "All" button followed by the letters. */
  function Buttons(): seq<string>
  {
    ["All"] + Letters()
  }

  /** The 28 labels on the bar are pairwise distinct; in particular the 27 letters are. */
  lemma ButtonsDistinct()
    ensures |Buttons()| == 28
    ensures forall i, j :: 0 <= i < j < |Buttons()| ==> Buttons()[i] != Buttons()[j]
  {
    var b := Buttons();
    forall i, j | 0 <= i < j < |b| ensures b[i] != b[j] {
      if i == 0 {
        assert |b[j]| == 1;
      } else if i == 1 {
        assert b[i] == "0";
        assert b[j][0] == ('A' as int + j - 2) as char;
      } else {
        assert b[i][0] == ('A' as int + i - 2) as char;
        assert b[j][0] == ('A' as int + j - 2) as char;
      }
    }
  }

  /** `useState(value ?? "All")`: the selection the component mounts with. */
  function InitialSelection(value: Option<string>): (sel: string)
    ensures value.None? ==> sel == "All"
    ensures value.Some? ==> sel == value.value
  {
    value.GetOr("All")
  }

  /** A click on a button: the new selection and the value passed to `onChange`. */
  datatype Click = Click(selection: string, emitted: string)

  /** Clicking the button labelled `button` selects it and reports it. */
  function Press(button: string): (c: Click)
    ensures c.selection == button
    ensures c.emitted == c.selection
  {
    Click(button, button)
  }

  /** A button is shown active when its button is the selection. */
  predicate Active(selection: string, button: string)
  {
    selection == button
  }

  /** The positions of the active buttons. */
  function ActiveButtons(selection: string): (r: set<int>)
    ensures forall k :: k in r <==> 0 <= k < |Buttons()| && Active(selection, Buttons()[k])
  {
    set k | 0 <= k < |Buttons()| && Active(selection, Buttons()[k])
  }

  /** At most one button is active; exactly one when the selection is one of the labels. */
  lemma AtMostOneActive(selection: string)
    ensures |ActiveButtons(selection)| <= 1
    ensures selection in Buttons() <==> |ActiveButtons(selection)| == 1
  {
    ButtonsDistinct();
    var r := ActiveButtons(selection);
    if selection in Buttons() {
      var k :| 0 <= k < |Buttons()| && Buttons()[k] == selection;
      assert r == {k};
    } else {
      assert r == {};
    }
  }

  /** After any click, exactly the clicked button is active. */
  lemma PressActivatesClicked(k: int)
    requires 0 <= k < |Buttons()|
    ensures ActiveButtons(Press(Buttons()[k]).selection) == {k}
  {
    ButtonsDistinct();
  }
}
