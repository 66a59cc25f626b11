/**
 * The cell logic of components/math/DigitGrid/DigitGrid.tsx: a row of
 * `numCells` one-character inputs that shows a string value, where the
 * indices in `spacerIndices` are non-editable gaps. The value is a string
 * with a space for each empty cell; edits and pastes write it back with its
 * trailing whitespace removed. Focus moves are returned as the index of
 * the cell to focus, -1 meaning that no cell is focused.
 */
module DigitGrid {
  import opened Options
  import opened Digits
  import opened Text

  /** Which way the grid moves after a digit is typed (`autoAdvanceDirection`). */
  datatype Advance = AdvanceRight | AdvanceLeft | AdvanceNone

  /** The keys `handleKeyDown` reacts to; every other key is `OtherKey`. */
  datatype Key = Backspace | ArrowLeft | ArrowRight | OtherKey

  /** The `focusOnTab` property: which cell receives focus when the grid itself does. */
  datatype TabEnd = FirstCell | LastCell

  // ---------------------------------------------------------------------
  // Value and cells

  /**
   * The `digits` array: the value padded with spaces to `numCells`, cut to
   * `numCells`, one cell per character, a space becoming an empty cell.
   */
  function CellsOf(value: string, numCells: nat): (cells: seq<string>)
    ensures |cells| == numCells
    ensures forall i :: 0 <= i < numCells ==>
              cells[i] == if i < |value| && value[i] != ' ' then [value[i]] else ""
  {
    var padded := PadEnd(value, numCells, ' ');
    seq(numCells, i requires 0 <= i < numCells => if padded[i] == ' ' then "" else [padded[i]])
  }

  /** The character a cell contributes to the joined value: a space when it is empty. */
  function CellChar(cell: string): string
  {
    if cell == "" then " " else cell
  }

  /** `.map((d) => (d === "" ? " " : d)).join("")`. */
  function CellText(cells: seq<string>): (r: string)
    ensures (forall i :: 0 <= i < |cells| ==> |cells[i]| <= 1) ==>
              |r| == |cells|
              && forall i :: 0 <= i < |cells| ==> r[i] == if cells[i] == "" then ' ' else cells[i][0]
  {
    if |cells| == 0 then "" else CellText(cells[..|cells| - 1]) + CellChar(cells[|cells| - 1])
  }

  /** The string `onChange` receives: the joined cells without trailing whitespace. */
  function Serialize(cells: seq<string>): string
  {
    TrimEnd(CellText(cells))
  }

  /** A cell as the grid produces it: empty, or one character that is not whitespace. */
  predicate GridCell(cell: string)
  {
    cell == "" || (|cell| == 1 && !IsJsWhitespace(cell[0]))
  }

  /** A value whose only whitespace is the space that marks an empty cell. */
  predicate GridText(value: string)
  {
    forall i :: 0 <= i < |value| ==> value[i] == ' ' || !IsJsWhitespace(value[i])
  }

  /**
   * One cell of the round trip: the character joined for a grid cell, kept
   * or trimmed away, reads back as that cell.
   */
  lemma {:induction false} CellBack(cell: string, c: char, kept: bool)
    requires GridCell(cell) && c == (if cell == "" then ' ' else cell[0])
    requires !kept ==> IsJsWhitespace(c)
    ensures (if kept && c != ' ' then [c] else "") == cell
  {
    assert IsJsWhitespace(' ');
  }

  /** Cells made of grid cells come back unchanged from the string written for them. */
  lemma {:induction false} SerializeRoundTrip(cells: seq<string>)
    requires forall i :: 0 <= i < |cells| ==> GridCell(cells[i])
    ensures CellsOf(Serialize(cells), |cells|) == cells
  {
    assert forall i :: 0 <= i < |cells| ==> |cells[i]| <= 1;
    var text := CellText(cells);
    var s := Serialize(cells);
    var back := CellsOf(s, |cells|);
    forall i | 0 <= i < |cells|
      ensures back[i] == cells[i]
    {
      if i < |s| {
        assert s[i] == text[i];
      }
      CellBack(cells[i], text[i], i < |s|);
    }
  }

  /** Trailing spaces after a string that does not end in whitespace are all that `trimEnd` removes. */
  lemma {:induction false} TrimEndPadding(s: string, k: nat)
    requires s == [] || !IsJsWhitespace(s[|s| - 1])
    ensures TrimEnd(s + Repeat(' ', k)) == s
  {
    if k > 0 {
      var t := s + Repeat(' ', k);
      assert t[|t| - 1] == ' ' && IsJsWhitespace(' ');
      assert t[..|t| - 1] == s + Repeat(' ', k - 1);
      TrimEndPadding(s, k - 1);
    } else {
      assert s + Repeat(' ', 0) == s;
    }
  }

  /** Joining the cells of a value that fits gives the value padded with spaces. */
  lemma {:induction false} CellTextOfValue(value: string, numCells: nat)
    requires |value| <= numCells
    ensures CellText(CellsOf(value, numCells)) == value + Repeat(' ', numCells - |value|)
  {
    var cells := CellsOf(value, numCells);
    assert forall i :: 0 <= i < |cells| ==> |cells[i]| <= 1;
    var text := CellText(cells);
    var padded := value + Repeat(' ', numCells - |value|);
    forall i | 0 <= i < numCells
      ensures text[i] == padded[i]
    {
      if i < |value| {
        assert padded[i] == value[i];
      }
    }
  }

  /**
   * A value no longer than the grid and not ending in whitespace is written
   * back unchanged when no cell is edited.
   */
  lemma {:induction false} ValueRoundTrip(value: string, numCells: nat)
    requires |value| <= numCells
    requires value == [] || !IsJsWhitespace(value[|value| - 1])
    ensures Serialize(CellsOf(value, numCells)) == value
  {
    CellTextOfValue(value, numCells);
    TrimEndPadding(value, numCells - |value|);
  }

  /** The cells of a grid text are grid cells. */
  lemma {:induction false} CellsOfGridText(value: string, numCells: nat)
    requires GridText(value)
    ensures forall i :: 0 <= i < numCells ==> GridCell(CellsOf(value, numCells)[i])
  {
  }

  // ---------------------------------------------------------------------
  // Focus movement

  /** k lies past `current` in the given direction. */
  predicate Beyond(k: int, current: int, direction: int)
  {
    if direction == 1 then current < k else k < current
  }

  /** k lies strictly between `current` and `r`, walking in the given direction. */
  predicate StrictlyBetween(k: int, current: int, r: int, direction: int)
  {
    if direction == 1 then current < k < r else r < k < current
  }

  /** The `focusCell` guard: an index that names an input of the grid. */
  predicate Focusable(index: int, numCells: int, spacers: seq<int>)
  {
    0 <= index < numCells && index !in spacers
  }

  /**
   * `r` is the first input cell past `current` in the given direction, or
   * -1 when the walk leaves the grid without meeting one.
   */
  ghost predicate FirstInputBeyond(r: int, current: int, direction: int, numCells: int, spacers: seq<int>)
  {
    && (r == -1 || (Focusable(r, numCells, spacers) && Beyond(r, current, direction)
                    && forall k :: StrictlyBetween(k, current, r, direction) ==> k in spacers))
    && (current + direction < 0 || current + direction >= numCells ==> r == -1)
    && (r == -1 && 0 <= current + direction < numCells ==>
          forall k :: 0 <= k < numCells && Beyond(k, current, direction) ==> k in spacers)
  }

  /** `getNextInputIndex`: walks from `currentIndex` past the spacers. */
  method GetNextInputIndex(currentIndex: int, direction: int, numCells: int, spacers: seq<int>) returns (r: int)
    requires direction == 1 || direction == -1
    ensures FirstInputBeyond(r, currentIndex, direction, numCells, spacers)
  {
    var nextIndex := currentIndex + direction;
    while 0 <= nextIndex < numCells
      invariant Beyond(nextIndex, currentIndex, direction)
      invariant nextIndex == currentIndex + direction
                || (0 <= currentIndex + direction < numCells
                    && if direction == 1 then nextIndex <= numCells else nextIndex >= -1)
      invariant forall k :: StrictlyBetween(k, currentIndex, nextIndex, direction) ==> k in spacers
      decreases if direction == 1 then numCells - nextIndex else nextIndex
    {
      if nextIndex !in spacers {
        return nextIndex;
      }
      nextIndex := nextIndex + direction;
    }
    r := -1;
    if 0 <= currentIndex + direction < numCells {
      forall k | 0 <= k < numCells && Beyond(k, currentIndex, direction)
        ensures k in spacers
      {
        assert StrictlyBetween(k, currentIndex, nextIndex, direction);
      }
    }
  }

  /** The first input of the grid walking from `start` towards the end, -1 when there is none. */
  lemma {:induction false} FirstInputFrom(r: int, numCells: int, spacers: seq<int>)
    requires FirstInputBeyond(r, -1, 1, numCells, spacers)
    ensures r == -1 <==> forall k :: 0 <= k < numCells ==> k in spacers
    ensures r != -1 ==> Focusable(r, numCells, spacers) && forall k :: 0 <= k < r ==> k in spacers
  {
    if r != -1 {
      forall k | 0 <= k < r
        ensures k in spacers
      {
        assert StrictlyBetween(k, -1, r, 1);
      }
    }
  }

  /**
   * `handleContainerFocus` (and, with `FirstCell`, the focus on mount):
   * the first input cell, or the last one when `focusOnTab` is "last".
   */
  method TabTarget(focusOnTab: TabEnd, numCells: nat, spacers: seq<int>) returns (target: int)
    ensures target == -1 <==> forall k :: 0 <= k < numCells ==> k in spacers
    ensures target != -1 ==> Focusable(target, numCells, spacers)
    ensures target != -1 && focusOnTab == FirstCell ==> forall k :: 0 <= k < target ==> k in spacers
    ensures target != -1 && focusOnTab == LastCell ==> forall k :: target < k < numCells ==> k in spacers
  {
    if focusOnTab == LastCell {
      target := GetNextInputIndex(numCells, -1, numCells, spacers);
      if target != -1 {
        forall k | target < k < numCells
          ensures k in spacers
        {
          assert StrictlyBetween(k, numCells, target, -1);
        }
      }
    } else {
      target := GetNextInputIndex(-1, 1, numCells, spacers);
      FirstInputFrom(target, numCells, spacers);
    }
  }

  /** The auto-focus effect: the first input cell when `autoFocus` is set and the grid is enabled. */
  method AutoFocusTarget(autoFocus: bool, disabled: bool, numCells: nat, spacers: seq<int>) returns (target: int)
    ensures !autoFocus || disabled ==> target == -1
    ensures autoFocus && !disabled ==> FirstInputBeyond(target, -1, 1, numCells, spacers)
  {
    target := -1;
    if autoFocus && !disabled {
      target := GetNextInputIndex(-1, 1, numCells, spacers);
    }
  }

  /** `handleKeyDown`: the cell the key moves focus to, -1 for none. */
  method HandleKeyDown(value: string, numCells: nat, spacers: seq<int>, index: int, key: Key) returns (focus: int)
    requires 0 <= index < numCells
    ensures (key == Backspace && CellsOf(value, numCells)[index] == "") || key == ArrowLeft ==>
              FirstInputBeyond(focus, index, -1, numCells, spacers)
    ensures key == ArrowRight ==> FirstInputBeyond(focus, index, 1, numCells, spacers)
    ensures key == OtherKey || (key == Backspace && CellsOf(value, numCells)[index] != "") ==> focus == -1
  {
    var digits := CellsOf(value, numCells);
    focus := -1;
    if key == Backspace && digits[index] == "" {
      focus := GetNextInputIndex(index, -1, numCells, spacers);
    }
    if key == ArrowLeft {
      focus := GetNextInputIndex(index, -1, numCells, spacers);
    }
    if key == ArrowRight {
      focus := GetNextInputIndex(index, 1, numCells, spacers);
    }
  }

  // ---------------------------------------------------------------------
  // Typing

  /** `newValue.slice(-1)` when the input holds more than one character. */
  function LastChar(newValue: string): (kept: string)
    ensures |kept| <= 1
    ensures |newValue| > 0 ==> kept == [newValue[|newValue| - 1]]
    ensures |newValue| == 0 ==> kept == ""
  {
    if |newValue| > 1 then newValue[|newValue| - 1..] else newValue
  }

  /**
   * `handleChange`: keeps the last typed character; anything but a digit or
   * an empty cell is refused (no `onChange`); otherwise the cell is replaced
   * and the new value emitted, and a typed digit moves focus one input on.
   */
  method HandleChange(value: string, numCells: nat, spacers: seq<int>, index: int, newValue: string,
                      advance: Advance)
    returns (emitted: Option<string>, focus: int)
    requires 0 <= index < numCells
    ensures emitted.None? <==> |newValue| > 0 && !IsDigitChar(newValue[|newValue| - 1])
    ensures emitted.Some? ==>
              emitted.value == Serialize(CellsOf(value, numCells)[index := LastChar(newValue)])
    ensures emitted.None? || |newValue| == 0 || advance == AdvanceNone ==> focus == -1
    ensures emitted.Some? && |newValue| > 0 && advance == AdvanceRight ==>
              FirstInputBeyond(focus, index, 1, numCells, spacers)
    ensures emitted.Some? && |newValue| > 0 && advance == AdvanceLeft ==>
              FirstInputBeyond(focus, index, -1, numCells, spacers)
  {
    var kept := LastChar(newValue);
    focus := -1;
    if kept != "" && !(|kept| == 1 && IsDigitChar(kept[0])) {
      emitted := None;
      return;
    }
    var newDigits := CellsOf(value, numCells)[index := kept];
    emitted := Some(Serialize(newDigits));
    if kept != "" && advance != AdvanceNone {
      var direction := if advance == AdvanceRight then 1 else -1;
      focus := GetNextInputIndex(index, direction, numCells, spacers);
    }
  }

  /**
   * An accepted edit of a grid text changes exactly the edited cell: the
   * emitted value shows the old cells with that one replaced.
   */
  lemma {:induction false} EditChangesOneCell(value: string, numCells: nat, index: nat, newValue: string)
    requires GridText(value) && index < numCells
    requires |newValue| == 0 || IsDigitChar(newValue[|newValue| - 1])
    ensures var cells := CellsOf(value, numCells)[index := LastChar(newValue)];
            CellsOf(Serialize(cells), numCells) == cells
  {
    var cells := CellsOf(value, numCells)[index := LastChar(newValue)];
    CellsOfGridText(value, numCells);
    assert forall i :: 0 <= i < numCells ==> GridCell(cells[i]);
    SerializeRoundTrip(cells);
  }

  // ---------------------------------------------------------------------
  // Pasting

  /** `text.replace(/\D/g, "")`: the decimal digits of the text, in order. */
  function DigitsOnly(text: string): (r: string)
    ensures |r| <= |text|
    ensures forall i :: 0 <= i < |r| ==> IsDigitChar(r[i])
    ensures forall c :: c in r <==> c in text && IsDigitChar(c)
  {
    if |text| == 0 then ""
    else DigitsOnly(text[..|text| - 1]) + (if IsDigitChar(text[|text| - 1]) then [text[|text| - 1]] else "")
  }

  /** The first input cell at or after `c`, or `c` itself when the walk reaches the end. */
  function NextFrom(c: nat, numCells: nat, spacers: seq<int>): (r: nat)
    ensures c <= r
    ensures r < numCells ==> r !in spacers
    ensures forall k :: c <= k < r && k < numCells ==> k in spacers
    decreases numCells - c
  {
    if c >= numCells then c else if c in spacers then NextFrom(c + 1, numCells, spacers) else c
  }

  /** The input cells from `start` to the end of the grid, in order. */
  function InputsFrom(start: nat, numCells: nat, spacers: seq<int>): (pos: seq<nat>)
    ensures forall k :: 0 <= k < |pos| ==> start <= pos[k] && Focusable(pos[k], numCells, spacers)
    ensures forall k, m :: 0 <= k < m < |pos| ==> pos[k] < pos[m]
    decreases numCells - start
  {
    var c := NextFrom(start, numCells, spacers);
    if c >= numCells then [] else [c] + InputsFrom(c + 1, numCells, spacers)
  }

  /** Every input cell at or after `start` is listed. */
  lemma {:induction false} InputsFromComplete(start: nat, numCells: nat, spacers: seq<int>, x: nat)
    requires start <= x && Focusable(x, numCells, spacers)
    ensures x in InputsFrom(start, numCells, spacers)
    decreases numCells - start
  {
    var c := NextFrom(start, numCells, spacers);
    if c < x {
      InputsFromComplete(c + 1, numCells, spacers, x);
    }
  }

  /** The first listed input from `c` is the first input at or after `c`. */
  lemma {:induction false} FirstOfInputs(c: nat, numCells: nat, spacers: seq<int>)
    ensures var pos := InputsFrom(c, numCells, spacers);
            (|pos| == 0 <==> NextFrom(c, numCells, spacers) >= numCells)
            && (|pos| > 0 ==> pos[0] == NextFrom(c, numCells, spacers)
                              && pos[1..] == InputsFrom(pos[0] + 1, numCells, spacers))
  {
  }

  /** The inner `while` of `handlePaste`: steps over the spacers from `start`. */
  method SkipSpacers(start: nat, numCells: nat, spacers: seq<int>) returns (c: nat)
    ensures c == NextFrom(start, numCells, spacers)
    ensures c >= numCells || c !in spacers
  {
    c := start;
    while c in spacers && c < numCells
      invariant start <= c
      invariant NextFrom(c, numCells, spacers) == NextFrom(start, numCells, spacers)
      decreases numCells - c
    {
      c := c + 1;
    }
  }

  /**
   * The first `m` pasted digits sit in the first `m` listed inputs, and
   * every other cell still holds what `cells` held.
   */
  ghost predicate PastedInto(newDigits: seq<string>, cells: seq<string>, digits: string, pos: seq<nat>, m: nat)
  {
    && m <= |digits| && m <= |pos| && |newDigits| == |cells|
    && (forall k :: 0 <= k < m ==> pos[k] < |newDigits| && newDigits[pos[k]] == [digits[k]])
    && (forall i :: 0 <= i < |cells| && i !in pos[..m] ==> newDigits[i] == cells[i])
  }

  /** Writing the next digit into the next listed input extends what has been pasted by one. */
  lemma {:induction false} PasteOne(newDigits: seq<string>, cells: seq<string>, digits: string, pos: seq<nat>, m: nat)
    requires PastedInto(newDigits, cells, digits, pos, m)
    requires m < |digits| && m < |pos| && pos[m] < |cells|
    requires forall k :: 0 <= k < m ==> pos[k] < pos[m]
    ensures PastedInto(newDigits[pos[m] := [digits[m]]], cells, digits, pos, m + 1)
  {
    assert pos[..m + 1] == pos[..m] + [pos[m]];
  }

  /**
   * `handlePaste`: the pasted digits are written, in order, into the input
   * cells from `index` on, skipping the spacers, until either runs out; focus
   * goes to the input after the last digit written.
   */
  method HandlePaste(value: string, numCells: nat, spacers: seq<int>, index: nat, pastedText: string)
    returns (newDigits: seq<string>, emitted: string, focus: int)
    ensures var pos := InputsFrom(index, numCells, spacers);
            var digits := DigitsOnly(pastedText);
            var m := if |digits| < |pos| then |digits| else |pos|;
            && PastedInto(newDigits, CellsOf(value, numCells), digits, pos, m)
            && focus == if |digits| < |pos| then pos[|digits|] else -1
    ensures emitted == Serialize(newDigits)
  {
    var pastedDigits := DigitsOnly(pastedText);
    var cells := CellsOf(value, numCells);
    var currentIndex: nat, j: nat;
    newDigits, currentIndex, j := PasteDigits(cells, pastedDigits, index, numCells, spacers);
    emitted := Serialize(newDigits);
    focus := GetNextInputIndex(currentIndex - 1, 1, numCells, spacers);
    FocusAfterPaste(currentIndex, focus, numCells, spacers);
    PasteDone(newDigits, cells, pastedDigits, InputsFrom(index, numCells, spacers), j,
              InputsFrom(currentIndex, numCells, spacers), focus);
  }

  /**
   * The `for` loop of `handlePaste`: each digit goes to the next input at or
   * after `currentIndex`, skipping the spacers, until the digits or the grid
   * run out. It stops having written j digits, with the inputs from
   * `currentIndex` on being exactly the ones it did not reach.
   */
  method PasteDigits(cells: seq<string>, pastedDigits: string, index: nat, numCells: nat, spacers: seq<int>)
    returns (newDigits: seq<string>, currentIndex: nat, j: nat)
    requires |cells| == numCells
    ensures var pos := InputsFrom(index, numCells, spacers);
            && j <= |pastedDigits| && j <= |pos| && (j == |pastedDigits| || j == |pos|)
            && InputsFrom(currentIndex, numCells, spacers) == pos[j..]
            && PastedInto(newDigits, cells, pastedDigits, pos, j)
  {
    ghost var pos := InputsFrom(index, numCells, spacers);
    newDigits := cells;
    currentIndex := index;
    j := 0;
    while j < |pastedDigits|
      invariant j <= |pastedDigits| && j <= |pos|
      invariant InputsFrom(currentIndex, numCells, spacers) == pos[j..]
      invariant PastedInto(newDigits, cells, pastedDigits, pos, j)
    {
      ghost var start := currentIndex;
      currentIndex := SkipSpacers(currentIndex, numCells, spacers);
      SkipStep(start, currentIndex, j, pos, numCells, spacers);
      if currentIndex >= numCells {
        NoInputsBeyond(currentIndex, numCells, spacers);
        break;
      }
      PasteOne(newDigits, cells, pastedDigits, pos, j);
      newDigits := newDigits[currentIndex := [pastedDigits[j]]];
      currentIndex := currentIndex + 1;
      j := j + 1;
    }
  }

  /** Past the last cell there is no input left. */
  lemma {:induction false} NoInputsBeyond(c: nat, numCells: nat, spacers: seq<int>)
    requires c >= numCells
    ensures InputsFrom(c, numCells, spacers) == []
  {
  }

  /**
   * When the paste loop stops, the digits or the inputs have run out, so it
   * has written min(digits, inputs) of them; focus goes to the first input
   * left over, if any.
   */
  lemma {:induction false} PasteDone(newDigits: seq<string>, cells: seq<string>, digits: string, pos: seq<nat>, j: nat,
                                     rest: seq<nat>, focus: int)
    requires j <= |digits| && j <= |pos| && (j == |digits| || j == |pos|)
    requires rest == pos[j..]
    requires focus == if |rest| > 0 then rest[0] else -1
    requires PastedInto(newDigits, cells, digits, pos, j)
    ensures var m := if |digits| < |pos| then |digits| else |pos|;
            && PastedInto(newDigits, cells, digits, pos, m)
            && focus == if |digits| < |pos| then pos[|digits|] else -1
  {
    if |digits| < |pos| {
      assert j == |digits| && rest[0] == pos[j];
    } else {
      assert j == |pos|;
    }
  }

  /** One round of the paste loop: skipping the spacers from `start` reaches the next listed input. */
  lemma {:induction false} SkipStep(start: nat, c: nat, j: nat, pos: seq<nat>, numCells: nat, spacers: seq<int>)
    requires j <= |pos| && InputsFrom(start, numCells, spacers) == pos[j..]
    requires c == NextFrom(start, numCells, spacers)
    ensures c >= numCells <==> j == |pos|
    ensures c < numCells ==> pos[j] == c && InputsFrom(c + 1, numCells, spacers) == pos[j + 1..]
  {
    FirstOfInputs(start, numCells, spacers);
    if j < |pos| {
      assert pos[j + 1..] == pos[j..][1..];
    }
  }

  /** Focusing "the input after `c - 1`" is focusing the first listed input from `c`. */
  lemma {:induction false} FocusAfterPaste(c: nat, focus: int, numCells: nat, spacers: seq<int>)
    requires FirstInputBeyond(focus, c - 1, 1, numCells, spacers)
    ensures var pos := InputsFrom(c, numCells, spacers);
            focus == if |pos| > 0 then pos[0] else -1
  {
    FirstOfInputs(c, numCells, spacers);
    var n := NextFrom(c, numCells, spacers);
    if focus != -1 {
      assert !StrictlyBetween(focus, c - 1, n, 1);
      assert !StrictlyBetween(n, c - 1, focus, 1) || n >= numCells;
    } else if c < numCells {
      assert n < numCells ==> Beyond(n, c - 1, 1);
    }
  }

  /**
   * Pasting into a grid text writes a value whose cells are exactly the
   * cells `handlePaste` computed.
   */
  lemma {:induction false} PasteRoundTrip(value: string, numCells: nat, newDigits: seq<string>, pastedText: string)
    requires GridText(value) && |newDigits| == numCells
    requires forall i :: 0 <= i < numCells ==>
               newDigits[i] == CellsOf(value, numCells)[i] || (|newDigits[i]| == 1 && IsDigitChar(newDigits[i][0]))
    ensures CellsOf(Serialize(newDigits), numCells) == newDigits
  {
    CellsOfGridText(value, numCells);
    SerializeRoundTrip(newDigits);
  }
}
