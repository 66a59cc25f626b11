/**
 * The logic of components/math/MultiplicationAreaModel.tsx: the rectangle
 * of place-value parts, one input per cell, and the addition grid that adds
 * the cell areas up to the product.
 */
module AreaModelView {
  import opened Options
  import opened Digits
  import opened Text
  import opened Sorting
  import opened Grids
  import AreaModel
  import AdditionGridView
  import PartialProductsView

  // ---------------------------------------------------------------------
  // Place-value parts

  /**
   * What the screen's own `getPlaceValueComponents` returns: the place
   * values of the nonzero digits, most significant first, and nothing at
   * all for 0 or a negative number.
   */
  function Components(num: int): seq<nat>
  {
    if num > 0 then AreaModel.ValuesFromTop(NonzeroPlaces(num)) else []
  }

  /** `getPlaceValueComponents` (lines 31-46): peels digits off the ones end, unshifting each nonzero term. */
  method GetPlaceValueComponents(num: int) returns (components: seq<nat>)
    ensures components == Components(num)
  {
    components := [];
    var place: nat := 0;
    var n := num;
    while n > 0
      invariant num <= 0 ==> n == num && components == []
      invariant num > 0 ==> n >= 0 && n == Shift(num, place)
                            && components == AreaModel.ValuesFromTop(NonzeroPlacesBelow(num, place))
      decreases n
    {
      var digit := n % 10;
      ShiftStep(num, place);
      AreaModel.ComponentsStep(num, place);
      if digit > 0 {
        components := [digit * Pow10(place)] + components;
      }
      n := n / 10;
      place := place + 1;
    }
    if num > 0 {
      NonzeroPlacesBelowAll(num, place);
    }
  }

  /**
   * The screen's parts are the lib's for a positive number; for 0 (and
   * negative numbers) the lib falls back to [0] while the screen has no
   * part at all. Either way the parts add up to the number, or to 0.
   */
  lemma {:induction false} ComponentsAgainstLib(num: int)
    ensures num > 0 ==> Components(num) == AreaModel.PlaceValueComponents(num)
    ensures num <= 0 ==> Components(num) == [] && AreaModel.PlaceValueComponents(num) == [0]
    ensures Sum(Components(num)) == if num > 0 then num else 0
  {
    if num > 0 {
      AreaModel.NonzeroPlacesNonempty(num);
      AreaModel.ComponentsSum(num);
    } else {
      AreaModel.ComponentsOfNonPositive(num);
    }
  }

  // ---------------------------------------------------------------------
  // The cells

  /** The screen's cells: multiplier parts as rows, multiplicand parts as columns. */
  function ViewCells(multiplicand: int, multiplier: int): seq<AreaModel.AreaModelCell>
  {
    Grid(Components(multiplier), Components(multiplicand), AreaModel.CellEntry)
  }

  /**
   * `createGrid` (lines 52-68): for each multiplier part, for each
   * multiplicand part, push the cell with its row and column index and the
   * area rowValue * colValue.
   */
  method CreateGrid(multiplierParts: seq<nat>, multiplicandParts: seq<nat>) returns (cells: seq<AreaModel.AreaModelCell>)
    ensures cells == Grid(multiplierParts, multiplicandParts, AreaModel.CellEntry)
  {
    cells := [];
    var rowIndex := 0;
    while rowIndex < |multiplierParts|
      invariant 0 <= rowIndex <= |multiplierParts|
      invariant cells == Grid(multiplierParts[..rowIndex], multiplicandParts, AreaModel.CellEntry)
    {
      GridPrefixStep(multiplierParts, rowIndex, multiplicandParts, AreaModel.CellEntry);
      cells := AreaModel.PushCellRow(rowIndex, multiplierParts[rowIndex], multiplicandParts, cells);
      rowIndex := rowIndex + 1;
    }
    assert multiplierParts[..rowIndex] == multiplierParts;
  }

  /**
   * For positive operands the screen's cells are the lib's; when either
   * operand is 0 the screen has no cell at all.
   */
  lemma {:induction false} CellsAgainstLib(multiplicand: int, multiplier: int)
    ensures multiplicand > 0 && multiplier > 0 ==>
              ViewCells(multiplicand, multiplier) == AreaModel.ExpectedCells(multiplicand, multiplier)
    ensures multiplicand <= 0 || multiplier <= 0 ==> ViewCells(multiplicand, multiplier) == []
  {
    ComponentsAgainstLib(multiplicand);
    ComponentsAgainstLib(multiplier);
    GridLength(Components(multiplier), Components(multiplicand), AreaModel.CellEntry);
  }

  // ---------------------------------------------------------------------
  // The rows handed to the addition grid

  /** Lines 74-78: a cell as a row to add, labelled "rowValue × colValue". */
  function ToAdditionRow(cell: AreaModel.AreaModelCell): AdditionGridView.AdditionRow
  {
    AdditionGridView.AdditionRow(cell.expected, NatToString(cell.rowValue) + " × " + NatToString(cell.colValue), false)
  }

  function RowValue(r: AdditionGridView.AdditionRow): int
  {
    r.value
  }

  /** `additionRows`: one row per cell, in cell order. */
  function AdditionRows(cells: seq<AreaModel.AreaModelCell>): seq<AdditionGridView.AdditionRow>
  {
    Map(ToAdditionRow, cells)
  }

  /**
   * For operands >= 0 the rows handed to the addition grid add up to its
   * expected sum `multiplicand * multiplier` (line 71), and row k is the
   * area of cell k.
   */
  lemma {:induction false} AdditionRowsAddUp(multiplicand: nat, multiplier: nat)
    ensures var cells := ViewCells(multiplicand, multiplier);
            var rows := AdditionRows(cells);
            |rows| == |cells|
            && (forall k :: 0 <= k < |rows| ==> rows[k].value == cells[k].rowValue * cells[k].colValue)
            && KeySum(rows, RowValue) == multiplicand * multiplier
  {
    var cells := ViewCells(multiplicand, multiplier);
    ViewCellAreas(multiplicand, multiplier);
    ViewCellsSum(multiplicand, multiplier);
    KeySumMap(ToAdditionRow, cells, AreaModel.CellValue, RowValue);
  }

  /** Every cell of the screen holds the product of its row and column values. */
  lemma {:induction false} ViewCellAreas(multiplicand: nat, multiplier: nat)
    ensures var cells := ViewCells(multiplicand, multiplier);
            forall k :: 0 <= k < |cells| ==> cells[k].expected == cells[k].rowValue * cells[k].colValue
  {
    var cells := ViewCells(multiplicand, multiplier);
    forall k | 0 <= k < |cells|
      ensures cells[k].expected == cells[k].rowValue * cells[k].colValue
    {
      CellArea(Components(multiplier), Components(multiplicand), cells[k]);
    }
  }

  /** For operands >= 0 the cells' values add up to the product. */
  lemma {:induction false} ViewCellsSum(multiplicand: nat, multiplier: nat)
    ensures KeySum(ViewCells(multiplicand, multiplier), AreaModel.CellValue) == multiplicand * multiplier
  {
    CellsAgainstLib(multiplicand, multiplier);
    if multiplicand > 0 && multiplier > 0 {
      AreaModel.ExpectedCellsSum(multiplicand, multiplier);
    }
  }

  lemma {:induction false} CellArea(pliers: seq<nat>, cands: seq<nat>, cell: AreaModel.AreaModelCell)
    requires cell in Grid(pliers, cands, AreaModel.CellEntry)
    ensures cell.expected == cell.rowValue * cell.colValue
  {
    if pliers != [] {
      var init := pliers[..|pliers| - 1];
      if cell in Grid(init, cands, AreaModel.CellEntry) {
        CellArea(init, cands, cell);
      } else {
        assert cell in Row(|pliers| - 1, pliers[|pliers| - 1], cands, AreaModel.CellEntry);
      }
    }
  }

  // ---------------------------------------------------------------------
  // Cell inputs

  /** In "<digits>-<rest>" the first dash comes right after the digits. */
  lemma {:induction false} DashAfterDigits(s: string, t: string)
    requires forall i :: 0 <= i < |s| ==> IsDigitChar(s[i])
    ensures (s + "-" + t)[|s|] == '-'
    ensures forall i :: 0 <= i < |s| ==> (s + "-" + t)[i] != '-'
    ensures (s + "-" + t)[..|s|] == s && (s + "-" + t)[|s| + 1..] == t
  {
  }

  /** Distinct cells have distinct "row-col" keys, so each cell has an input of its own. */
  lemma {:induction false} CellKeysDistinct(r1: nat, c1: nat, r2: nat, c2: nat)
    requires AreaModel.CellKey(r1, c1) == AreaModel.CellKey(r2, c2)
    ensures r1 == r2 && c1 == c2
  {
    var s1, s2 := NatToString(r1), NatToString(r2);
    var t1, t2 := NatToString(c1), NatToString(c2);
    NatToStringDigits(r1);
    NatToStringDigits(r2);
    DashAfterDigits(s1, t1);
    DashAfterDigits(s2, t2);
    assert |s1| == |s2|;
    NatToStringInjective(r1, r2);
    NatToStringInjective(c1, c2);
  }

  /** `getCellInput` (lines 90-93): the stored entry, or "" when there is none. */
  function CellInput(cellInputs: map<string, string>, row: nat, col: nat): string
  {
    var key := AreaModel.CellKey(row, col);
    if key in cellInputs then cellInputs[key] else ""
  }

  /** Storing an entry under one cell's key changes that cell's input and no other. */
  lemma {:induction false} EditTouchesOneCell(cellInputs: map<string, string>, row: nat, col: nat, value: string, r: nat, c: nat)
    ensures CellInput(cellInputs[AreaModel.CellKey(row, col) := value], r, c)
            == if r == row && c == col then value else CellInput(cellInputs, r, c)
  {
    if AreaModel.CellKey(row, col) == AreaModel.CellKey(r, c) {
      CellKeysDistinct(row, col, r, c);
    }
  }

  /**
   * The colour of a cell's input (lines 137-161): none while validation is
   * off or the input is blank, otherwise whether it parses to the area.
   * It is the colour rule of the partial products screen.
   */
  function CellMark(showValidation: bool, cellInputs: map<string, string>, cell: AreaModel.AreaModelCell): Option<bool>
  {
    PartialProductsView.Mark(showValidation, CellInput(cellInputs, cell.row, cell.col), cell.expected)
  }

  /** An area typed as its decimal form shows green. */
  lemma {:induction false} TypedAreaIsGreen(cellInputs: map<string, string>, cell: AreaModel.AreaModelCell)
    requires CellInput(cellInputs, cell.row, cell.col) == NatToString(cell.expected)
    ensures CellMark(true, cellInputs, cell) == Some(true)
  {
    var s := NatToString(cell.expected);
    NatToStringDigits(cell.expected);
    PartialProductsView.AcceptedEntry(s);
    DecimalValueOfNatToString(cell.expected);
  }

  /** The area model screen: the cell inputs; the sum is the addition grid's. */
  class AreaModelScreen {
    var cellInputs: map<string, string>

    /** Every stored entry passed the input filter. */
    predicate Valid()
      reads this
    {
      forall key :: key in cellInputs ==> AcceptsNumberInput(cellInputs[key])
    }

    constructor()
      ensures Valid() && cellInputs == map[]
    {
      cellInputs := map[];
    }

    /** `handleCellChange` (lines 83-88): an empty or all-digit value is stored under "row-col". */
    method HandleCellChange(row: nat, col: nat, value: string)
      requires Valid()
      modifies this
      ensures Valid()
      ensures cellInputs == if AcceptsNumberInput(value) then old(cellInputs)[AreaModel.CellKey(row, col) := value]
                            else old(cellInputs)
    {
      if value == "" || IsDigitString(value) {
        cellInputs := cellInputs[AreaModel.CellKey(row, col) := value];
      }
    }
  }
}
