// The SmartSelect widget: a searchable select whose chosen values are shown as
// pills, whose hidden input carries the first chosen value, and whose keyboard
// handling moves a highlight through the filtered options.

module SmartSelectWidget {
  import opened Common

  /** One option of the widget, as found in its JSON data block. */
  datatype Choice = Choice(value: string, text: string)

  /** The keys `handleKeydown` distinguishes; every other key is ignored. */
  datatype Key = ArrowDown | ArrowUp | Enter | Escape | Backspace | OtherKey

  /** `selectedChoices.some(selected => selected.value === v)`. */
  predicate IsSelected(sel: seq<Choice>, v: string)
  {
    exists i :: 0 <= i < |sel| && sel[i].value == v
  }

  /** No value appears twice among the pills. */
  predicate DistinctValues(sel: seq<Choice>)
  {
    forall i, j :: 0 <= i < j < |sel| ==> sel[i].value != sel[j].value
  }

  /** The choices `handleSearch` shows for the typed text (lower-cased, then trimmed). */
  function SearchResults(choices: seq<Choice>, typed: string): (r: seq<Choice>)
    ensures forall i :: 0 <= i < |r| ==> r[i] in choices
    ensures Trim(Lower(typed)) == "" ==> r == choices
    ensures Trim(Lower(typed)) != "" ==>
      (forall i :: 0 <= i < |r| ==> r[i] in choices && Contains(Lower(r[i].text), Trim(Lower(typed))))
    ensures Trim(Lower(typed)) != "" ==>
      (forall i :: 0 <= i < |choices| && Contains(Lower(choices[i].text), Trim(Lower(typed))) ==> choices[i] in r)
  {
    var query := Trim(Lower(typed));
    if query == "" then choices
    else Filter(choices, (c: Choice) => Contains(Lower(c.text), query))
  }

  /** The selection after `selectChoice(c)`: appended unless its value is already there. */
  function AddChoice(sel: seq<Choice>, c: Choice): (r: seq<Choice>)
    ensures IsSelected(sel, c.value) ==> r == sel
    ensures !IsSelected(sel, c.value) ==> r == sel + [c]
  {
    if IsSelected(sel, c.value) then sel else sel + [c]
  }

  /** The selection after `removeChoice(c)`: every entry with that value goes. */
  function WithoutValue(sel: seq<Choice>, v: string): (r: seq<Choice>)
    ensures !IsSelected(r, v)
    ensures forall i :: 0 <= i < |r| ==> r[i] in sel
    ensures forall i :: 0 <= i < |sel| && sel[i].value != v ==> sel[i] in r
  {
    Filter(sel, (c: Choice) => c.value != v)
  }

  /** What `updateHiddenInput` writes: the first selected value, or the empty string. */
  function HiddenValue(sel: seq<Choice>): (r: string)
    ensures |sel| == 0 ==> r == ""
    ensures |sel| > 0 ==> r == sel[0].value
  {
    if |sel| > 0 then sel[0].value else ""
  }

  /** ArrowDown: `Math.min(h + 1, n - 1)`. */
  function NextHighlight(h: int, n: nat): (r: int)
    ensures r <= h + 1 && r <= n - 1
    ensures r == h + 1 || r == n - 1
  {
    if h + 1 < n - 1 then h + 1 else n - 1
  }

  /** ArrowUp: `Math.max(h - 1, -1)`. */
  function PreviousHighlight(h: int): (r: int)
    ensures r >= h - 1 && r >= -1
    ensures r == h - 1 || r == -1
  {
    if h - 1 > -1 then h - 1 else -1
  }

  /** Selecting keeps the values distinct and adds exactly the chosen value. */
  lemma {:induction false} AddChoiceDistinct(sel: seq<Choice>, c: Choice)
    requires DistinctValues(sel)
    ensures DistinctValues(AddChoice(sel, c))
    ensures forall v :: IsSelected(AddChoice(sel, c), v) <==> IsSelected(sel, v) || v == c.value
  {
    var r := AddChoice(sel, c);
    if !IsSelected(sel, c.value) {
      assert r == sel + [c];
      forall i, j | 0 <= i < j < |r|
        ensures r[i].value != r[j].value
      {
        if j == |sel| {
          assert r[j] == c;
          assert r[i] == sel[i];
        } else {
          assert r[i] == sel[i] && r[j] == sel[j];
        }
      }
      forall v | IsSelected(r, v)
        ensures IsSelected(sel, v) || v == c.value
      {
        var k :| 0 <= k < |r| && r[k].value == v;
        if k < |sel| {
          assert sel[k] == r[k];
        }
      }
      forall v | IsSelected(sel, v)
        ensures IsSelected(r, v)
      {
        var k :| 0 <= k < |sel| && sel[k].value == v;
        assert r[k] == sel[k];
      }
      assert r[|sel|] == c;
    }
  }

  /** Removing a value keeps the selected values other than it, and only those. */
  lemma {:induction false} RemoveValueSelected(sel: seq<Choice>, v: string, w: string)
    ensures IsSelected(WithoutValue(sel, v), w) <==> IsSelected(sel, w) && w != v
  {
    var r := WithoutValue(sel, v);
    if IsSelected(r, w) {
      var k :| 0 <= k < |r| && r[k].value == w;
      assert r[k] in sel;
      var m :| 0 <= m < |sel| && sel[m] == r[k];
    }
    if IsSelected(sel, w) && w != v {
      var k :| 0 <= k < |sel| && sel[k].value == w;
      assert sel[k] in r;
      var m :| 0 <= m < |r| && r[m] == sel[k];
    }
  }

  /** An entry kept from the rest of a distinct selection has a value unlike its head's. */
  lemma {:induction false} KeptTailDiffersFromHead(sel: seq<Choice>, v: string, k: int)
    requires DistinctValues(sel) && |sel| > 0
    requires 0 <= k < |WithoutValue(sel[1..], v)|
    ensures WithoutValue(sel[1..], v)[k].value != sel[0].value
  {
    var x := WithoutValue(sel[1..], v)[k];
    assert x in sel[1..];
    var m :| 0 <= m < |sel[1..]| && sel[1..][m] == x;
    assert sel[m + 1] == x;
  }

  /** A head whose value the distinct rest lacks gives a distinct selection. */
  lemma {:induction false} DistinctCons(c: Choice, rest: seq<Choice>)
    requires DistinctValues(rest)
    requires forall k :: 0 <= k < |rest| ==> rest[k].value != c.value
    ensures DistinctValues([c] + rest)
  {
    var r := [c] + rest;
    forall i, j | 0 <= i < j < |r|
      ensures r[i].value != r[j].value
    {
      assert r[j] == rest[j - 1];
      if i > 0 {
        assert r[i] == rest[i - 1];
      }
    }
  }

  /** Removing from a distinct selection keeps it distinct (it keeps the order). */
  lemma {:induction false} RemoveValueDistinct(sel: seq<Choice>, v: string)
    requires DistinctValues(sel)
    ensures DistinctValues(WithoutValue(sel, v))
  {
    if |sel| > 0 {
      var tail := WithoutValue(sel[1..], v);
      RemoveValueDistinct(sel[1..], v);
      assert WithoutValue(sel, v) == (if sel[0].value != v then [sel[0]] else []) + tail;
      if sel[0].value != v {
        forall k | 0 <= k < |tail|
          ensures tail[k].value != sel[0].value
        {
          KeptTailDiffersFromHead(sel, v, k);
        }
        DistinctCons(sel[0], tail);
      } else {
        assert WithoutValue(sel, v) == tail;
      }
    }
  }

  /** Removing the value just added to a selection that lacked it restores the selection. */
  lemma {:induction false} RemoveUndoesSelect(sel: seq<Choice>, c: Choice)
    requires !IsSelected(sel, c.value)
    ensures WithoutValue(AddChoice(sel, c), c.value) == sel
  {
    var keep := (x: Choice) => x.value != c.value;
    forall i | 0 <= i < |sel|
      ensures keep(sel[i])
    {
    }
    FilterAll(sel, keep);
    FilterAppend(sel, [c], keep);
    assert Filter([c], keep) == [];
  }

  // ---------------------------------------------------------------------------
  // The script as written
  // ---------------------------------------------------------------------------

  /** Whether a line, with its indentation removed, opens a JavaScript comment: a slash followed by a slash or an asterisk. */
  predicate IsCommentLine(line: string)
  {
    |line| >= 2 && line[0] == '/' && (line[1] == '/' || line[1] == '*')
  }

  /**
   * The note lines of the constructor body (smart-select.js:12, 19, 39) as
   * written. The second opens with `#`, which JavaScript reads neither as a
   * comment nor, followed by a space, as a private name.
   */
  const ConstructorNotesAsWritten: seq<string> := ["// Get elements", "# Get data", "// State"]

  /** The same lines read as the comments they evidently are. */
  const ConstructorNotes: seq<string> := ["// Get elements", "// Get data", "// State"]

  /**
   * A script whose constructor carries these note lines parses, and so
   * declares `SmartSelect` and registers its DOMContentLoaded handler,
   * exactly when every one of them is a comment.
   */
  function DeclaresWidget(notes: seq<string>): (r: bool)
    ensures r <==> forall i :: 0 <= i < |notes| ==> IsCommentLine(notes[i])
  {
    if |notes| == 0 then true
    else
      var rest := DeclaresWidget(notes[1..]);
      assert forall i :: 1 <= i < |notes| ==> notes[i] == notes[1..][i - 1];
      IsCommentLine(notes[0]) && rest
  }

  /** As written the script is rejected and no widget is ever built; with line 19 a comment it is not. */
  lemma AsWrittenDeclaresNoWidget()
    ensures !DeclaresWidget(ConstructorNotesAsWritten)
    ensures DeclaresWidget(ConstructorNotes)
  {
    assert !IsCommentLine(ConstructorNotesAsWritten[1]);
    assert IsCommentLine(ConstructorNotes[0]) && IsCommentLine(ConstructorNotes[1]) && IsCommentLine(ConstructorNotes[2]);
  }

  /** The widget as the script evidently means it, with line 19 a comment. */
  class SmartSelect {
    const choices: seq<Choice>
    var selectedChoices: seq<Choice>
    var filteredChoices: seq<Choice>
    var highlightedIndex: int
    var isOpen: bool
    /** The text of the search input. */
    var searchValue: string
    /** The value of the hidden form input. */
    var hiddenValue: string

    /**
     * The highlight is -1 or a position in the filtered list, the filtered
     * options are drawn from the choices, and the hidden input mirrors the pills.
     */
    predicate Valid()
      reads this
    {
      -1 <= highlightedIndex < |filteredChoices| &&
      (forall i :: 0 <= i < |filteredChoices| ==> filteredChoices[i] in choices) &&
      hiddenValue == HiddenValue(selectedChoices)
    }

    /**
     * The constructor followed by `init`. `data` is the parsed JSON block:
     * `None` when the block is missing or does not parse, which leaves both lists empty.
     */
    constructor (data: Option<(seq<Choice>, seq<Choice>)>)
      ensures data.None? ==> choices == [] && selectedChoices == []
      ensures data.Some? ==> choices == data.value.0 && selectedChoices == data.value.1
      ensures filteredChoices == choices && highlightedIndex == -1 && !isOpen && searchValue == ""
      ensures Valid()
    {
      var all, sel := [], [];
      if data.Some? {
        all, sel := data.value.0, data.value.1;
      }
      choices := all;
      selectedChoices := sel;
      filteredChoices := all;
      highlightedIndex := -1;
      isOpen := false;
      searchValue := "";
      hiddenValue := HiddenValue(sel);
    }

    method OpenDropdown()
      modifies this
      ensures isOpen
      ensures selectedChoices == old(selectedChoices) && filteredChoices == old(filteredChoices)
      ensures highlightedIndex == old(highlightedIndex) && searchValue == old(searchValue)
      ensures hiddenValue == old(hiddenValue)
    {
      isOpen := true;
    }

    /** `closeDropdown`: closes and drops the highlight. */
    method CloseDropdown()
      modifies this
      ensures !isOpen && highlightedIndex == -1
      ensures selectedChoices == old(selectedChoices) && filteredChoices == old(filteredChoices)
      ensures searchValue == old(searchValue) && hiddenValue == old(hiddenValue)
      ensures old(Valid()) ==> Valid()
    {
      isOpen := false;
      highlightedIndex := -1;
    }

    /** `updateHiddenInput`. */
    method UpdateHiddenInput()
      modifies this
      ensures hiddenValue == HiddenValue(selectedChoices)
      ensures selectedChoices == old(selectedChoices) && filteredChoices == old(filteredChoices)
      ensures highlightedIndex == old(highlightedIndex) && isOpen == old(isOpen)
      ensures searchValue == old(searchValue)
    {
      hiddenValue := HiddenValue(selectedChoices);
    }

    /** `handleSearch` for the text now in the search input. */
    method HandleSearch(typed: string)
      modifies this
      ensures searchValue == typed
      ensures filteredChoices == SearchResults(choices, typed)
      ensures highlightedIndex == -1 && isOpen
      ensures selectedChoices == old(selectedChoices) && hiddenValue == old(hiddenValue)
      ensures old(Valid()) ==> Valid()
    {
      var found := SearchResults(choices, typed);
      searchValue := typed;
      filteredChoices := found;
      highlightedIndex := -1;
      OpenDropdown();
    }

    /**
     * `selectChoice`. `inputFocused` says whether the search input still has
     * the focus: when it has lost it (an option was clicked), the closing
     * `focus()` call fires the focus handler, which opens the list again.
     */
    method SelectChoice(choice: Choice, inputFocused: bool)
      modifies this
      ensures selectedChoices == AddChoice(old(selectedChoices), choice)
      ensures hiddenValue == (if IsSelected(old(selectedChoices), choice.value) then old(hiddenValue)
                              else HiddenValue(selectedChoices))
      ensures searchValue == "" && filteredChoices == choices && highlightedIndex == -1
      ensures isOpen == !inputFocused
      ensures old(Valid()) ==> Valid()
    {
      var isSelected := IsSelected(selectedChoices, choice.value);
      if !isSelected {
        selectedChoices := selectedChoices + [choice];
        UpdateHiddenInput();
      }
      searchValue := "";
      filteredChoices := choices;
      CloseDropdown();
      if !inputFocused {
        OpenDropdown();
      }
    }

    /** `removeChoice`: drops every pill with the choice's value. */
    method RemoveChoice(choice: Choice)
      modifies this
      ensures selectedChoices == WithoutValue(old(selectedChoices), choice.value)
      ensures hiddenValue == HiddenValue(selectedChoices)
      ensures filteredChoices == old(filteredChoices) && highlightedIndex == old(highlightedIndex)
      ensures isOpen == old(isOpen) && searchValue == old(searchValue)
      ensures old(Valid()) ==> Valid()
    {
      selectedChoices := WithoutValue(selectedChoices, choice.value);
      UpdateHiddenInput();
    }

    /** `handleKeydown` on the search input (which therefore has the focus). */
    method HandleKeydown(key: Key)
      requires Valid()
      modifies this
      ensures Valid()
      ensures key.ArrowDown? ==>
        highlightedIndex == NextHighlight(old(highlightedIndex), |old(filteredChoices)|) && isOpen &&
        selectedChoices == old(selectedChoices) && filteredChoices == old(filteredChoices) &&
        searchValue == old(searchValue)
      ensures key.ArrowUp? ==>
        highlightedIndex == PreviousHighlight(old(highlightedIndex)) && isOpen == old(isOpen) &&
        selectedChoices == old(selectedChoices) && filteredChoices == old(filteredChoices) &&
        searchValue == old(searchValue)
      ensures key.Enter? && old(highlightedIndex) >= 0 && old(isOpen) ==>
        selectedChoices == AddChoice(old(selectedChoices), old(filteredChoices)[old(highlightedIndex)]) &&
        searchValue == "" && filteredChoices == choices && highlightedIndex == -1 && !isOpen
      ensures key.Enter? && !(old(highlightedIndex) >= 0 && old(isOpen)) ==>
        selectedChoices == old(selectedChoices) && filteredChoices == old(filteredChoices) &&
        highlightedIndex == old(highlightedIndex) && isOpen == old(isOpen) && searchValue == old(searchValue)
      ensures key.Escape? ==>
        !isOpen && highlightedIndex == -1 &&
        selectedChoices == old(selectedChoices) && filteredChoices == old(filteredChoices) &&
        searchValue == old(searchValue)
      ensures key.Backspace? ==>
        selectedChoices ==
          (if old(searchValue) == "" && |old(selectedChoices)| > 0
           then WithoutValue(old(selectedChoices), old(selectedChoices)[|old(selectedChoices)| - 1].value)
           else old(selectedChoices)) &&
        filteredChoices == old(filteredChoices) && highlightedIndex == old(highlightedIndex) &&
        isOpen == old(isOpen) && searchValue == old(searchValue)
      ensures key.OtherKey? ==>
        selectedChoices == old(selectedChoices) && filteredChoices == old(filteredChoices) &&
        highlightedIndex == old(highlightedIndex) && isOpen == old(isOpen) && searchValue == old(searchValue)
    {
      match key {
        case ArrowDown =>
          highlightedIndex := NextHighlight(highlightedIndex, |filteredChoices|);
          OpenDropdown();
        case ArrowUp =>
          highlightedIndex := PreviousHighlight(highlightedIndex);
        case Enter =>
          if highlightedIndex >= 0 && isOpen {
            SelectChoice(filteredChoices[highlightedIndex], true);
          }
        case Escape =>
          CloseDropdown();
        case Backspace =>
          if searchValue == "" && |selectedChoices| > 0 {
            RemoveChoice(selectedChoices[|selectedChoices| - 1]);
          }
        case OtherKey =>
      }
    }
  }
}
