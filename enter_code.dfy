/**
 * The six-digit code entry (entercode/page.tsx): six one-character cells,
 * typing, paste-fill and cursor movement between the cells, and the
 * submit check. The cell the browser focuses is the `focus` index; it
 * changes only where the page calls `focus()`.
 */
module EnterCode {
  import opened Text

  const Cells: nat := 6

  /** A cell holds nothing or one decimal digit. */
  predicate IsCell(c: string) {
    c == "" || (|c| == 1 && IsDigit(c[0]))
  }

  /** `value.replace(/\D/g, "").slice(-1)`: the last digit typed, or nothing. */
  function LastDigit(typed: string): (r: string)
    ensures IsCell(r)
    ensures r == "" <==> DigitsOnly(typed) == ""
    ensures r != "" ==> r[0] == DigitsOnly(typed)[|DigitsOnly(typed)| - 1]
  {
    var value := DigitsOnly(typed);
    if value == "" then "" else value[|value| - 1..]
  }

  /** The cells a paste of the digits `d` produces: the first six digits, one per cell, then empty cells. */
  function PasteCells(d: string): (cells: seq<string>)
    requires AllDigits(d)
    ensures |cells| == Cells
    ensures forall i | 0 <= i < Cells :: IsCell(cells[i])
    ensures forall i | 0 <= i < Cells :: cells[i] == (if i < |d| then [d[i]] else "")
  {
    seq(Cells, i requires 0 <= i < Cells => if i < |d| then [d[i]] else "")
  }

  /** `fullCode.length === 6 && !/\D/.test(fullCode)`. */
  predicate CodeAccepted(cells: seq<string>) {
    var full := Join(cells, "");
    |full| == 6 && AllDigits(full)
  }

  datatype Key = Backspace | ArrowLeft | ArrowRight | OtherKey

  /** `newCode` filled by `chars.forEach((c, i) => newCode[i] = c)`. */
  method FillCells(chars: string) returns (newCode: array<string>)
    requires |chars| <= Cells && AllDigits(chars)
    ensures fresh(newCode)
    ensures newCode[..] == PasteCells(chars)
  {
    newCode := new string[Cells](_ => "");
    for i := 0 to |chars|
      invariant forall j | 0 <= j < i :: newCode[j] == [chars[j]]
      invariant forall j | i <= j < Cells :: newCode[j] == ""
    {
      newCode[i] := [chars[i]];
    }
  }

  /** Only the first six digits of a paste reach the cells. */
  lemma PasteCellsFirstSix(d: string)
    requires AllDigits(d)
    ensures AllDigits(if |d| < 6 then d else d[..6])
    ensures PasteCells(if |d| < 6 then d else d[..6]) == PasteCells(d)
  {
  }

  class CodeEntry {
    var code: array<string>
    var focus: int
    var message: string
    var isError: bool

    /** Six cells, each empty or one digit, and the focus on one of them. */
    ghost predicate Valid()
      reads this, code
    {
      && code.Length == Cells
      && (forall i | 0 <= i < Cells :: IsCell(code[i]))
      && 0 <= focus < Cells
    }

    /** Six empty cells; the mount effect focuses the first. */
    constructor ()
      ensures Valid() && fresh(code)
      ensures code[..] == ["", "", "", "", "", ""] && focus == 0
      ensures message == "" && !isError
    {
      code := new string[Cells](_ => "");
      focus := 0;
      message := "";
      isError := false;
      new;
      assert code[..] == ["", "", "", "", "", ""];
    }

    /**
     * `handleInput(index, e)`: the cell at `index` gets the last digit of
     * the typed text (or nothing); the other cells keep their content;
     * focus moves to the next cell only when a digit came in and the cell
     * is not the last.
     */
    method HandleInput(index: int, typed: string)
      requires Valid() && 0 <= index < Cells
      modifies this
      ensures Valid() && fresh(code)
      ensures code[..] == old(code[..])[index := LastDigit(typed)]
      ensures focus == if DigitsOnly(typed) != "" && index < 5 then index + 1 else old(focus)
      ensures message == old(message) && isError == old(isError)
    {
      var value := DigitsOnly(typed);
      var updated := new string[Cells];
      forall i | 0 <= i < Cells {
        updated[i] := code[i];
      }
      updated[index] := LastDigit(typed);
      code := updated;
      if value != "" && index < 5 {
        focus := index + 1;
      }
    }

    /**
     * `handleKeydown(index, e)`: Backspace on an empty cell and ArrowLeft
     * move focus one cell back unless at the first cell; ArrowRight moves
     * it one cell on unless at the last; nothing else moves it.
     */
    method HandleKeydown(index: int, key: Key)
      requires Valid() && 0 <= index < Cells
      modifies this`focus
      ensures Valid()
      ensures focus == (
        if key == Backspace && code[index] == "" && index > 0 then index - 1
        else if key == ArrowLeft && index > 0 then index - 1
        else if key == ArrowRight && index < 5 then index + 1
        else old(focus))
    {
      if key == Backspace && code[index] == "" && index > 0 {
        focus := index - 1;
      }
      if key == ArrowLeft && index > 0 {
        focus := index - 1;
      }
      if key == ArrowRight && index < 5 {
        focus := index + 1;
      }
    }

    /**
     * `handlePaste(e)`: the pasted text is trimmed and reduced to its
     * digits. Exactly six digits fill the cells and focus the last one;
     * otherwise, when there is at least one digit, the first (up to six)
     * fill the first cells, the rest are emptied and focus goes to the
     * cell after the last digit (at most the last cell); with no digit
     * nothing changes.
     */
    method HandlePaste(clip: string)
      requires Valid()
      modifies this
      ensures Valid()
      ensures DigitsOnly(clip) == "" ==> code == old(code) && focus == old(focus)
      ensures DigitsOnly(clip) != "" ==>
        && fresh(code)
        && code[..] == PasteCells(DigitsOnly(clip))
        && focus == if |DigitsOnly(clip)| < 5 then |DigitsOnly(clip)| else 5
      ensures message == old(message) && isError == old(isError)
    {
      var pasted := Trim(clip);
      var digitsOnly := DigitsOnly(pasted);
      DigitsOnlyTrim(clip);
      if |digitsOnly| == 6 {
        var digits := new string[Cells](i requires 0 <= i < Cells => [digitsOnly[i]]);
        assert digits[..] == PasteCells(digitsOnly);
        code := digits;
        focus := 5;
      } else {
        var chars := if |digitsOnly| < 6 then digitsOnly else digitsOnly[..6];
        if |chars| > 0 {
          var newCode := FillCells(chars);
          PasteCellsFirstSix(digitsOnly);
          code := newCode;
          focus := if |chars| < 5 then |chars| else 5;
        }
      }
    }

    /**
     * `handleSubmit(e)`: the error message exactly when the joined cells
     * are not six digits, the success message otherwise.
     */
    method HandleSubmit()
      requires Valid()
      modifies this`message, this`isError
      ensures Valid()
      ensures isError <==> !CodeAccepted(code[..])
      ensures message == if isError then "Please enter all 6 digits" else "Code verified successfully!"
    {
      var fullCode := Join(code[..], "");
      if |fullCode| != 6 || !AllDigits(fullCode) {
        message := "Please enter all 6 digits";
        isError := true;
        return;
      }
      message := "Code verified successfully!";
      isError := false;
    }
  }

  /** Joining cells that each hold at most one digit gives a string of digits. */
  lemma {:induction false} JoinedCellsAreDigits(cells: seq<string>)
    requires forall i | 0 <= i < |cells| :: IsCell(cells[i])
    ensures AllDigits(Join(cells, ""))
  {
    if |cells| > 1 {
      JoinedCellsAreDigits(cells[1..]);
      var rest := Join(cells[1..], "");
      assert Join(cells, "") == cells[0] + rest;
    }
  }

  /** The lengths of at most one-character cells add up to the cell count exactly when no cell is empty. */
  lemma {:induction false} CellLengths(cells: seq<string>)
    requires forall i | 0 <= i < |cells| :: IsCell(cells[i])
    ensures SumOfLengths(cells) <= |cells|
    ensures SumOfLengths(cells) == |cells| <==> forall i | 0 <= i < |cells| :: cells[i] != ""
  {
    if cells != [] {
      CellLengths(cells[1..]);
      if SumOfLengths(cells) == |cells| {
        forall i | 0 <= i < |cells| ensures cells[i] != "" {
          if i > 0 { assert cells[i] == cells[1..][i - 1]; }
        }
      }
      if forall i | 0 <= i < |cells| :: cells[i] != "" {
        assert forall i | 0 <= i < |cells| - 1 :: cells[1..][i] != "" by {
          forall i | 0 <= i < |cells| - 1 ensures cells[1..][i] != "" {
            assert cells[1..][i] == cells[i + 1];
          }
        }
      }
    }
  }

  /** Six well-formed cells are accepted exactly when every one of them is filled. */
  lemma AcceptedIffFilled(cells: seq<string>)
    requires |cells| == Cells && forall i | 0 <= i < Cells :: IsCell(cells[i])
    ensures CodeAccepted(cells) <==> forall i | 0 <= i < Cells :: cells[i] != ""
  {
    JoinedCellsAreDigits(cells);
    CellLengths(cells);
  }

  /**
   * A paste with at least six digits, anywhere in the text, fills every
   * cell, so submitting right after it succeeds; a paste with fewer digits
   * leaves an empty cell and submitting fails.
   */
  lemma PasteThenSubmit(clip: string)
    requires DigitsOnly(clip) != ""
    ensures CodeAccepted(PasteCells(DigitsOnly(clip))) <==> |DigitsOnly(clip)| >= Cells
  {
    var d := DigitsOnly(clip);
    var cells := PasteCells(d);
    AcceptedIffFilled(cells);
    if |d| < Cells {
      assert cells[|d|] == "";
    }
  }
}
