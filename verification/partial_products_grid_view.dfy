/**
 * The logic of components/math/MultiplicationPartialProductsGrid.tsx: the
 * partial products handed to the addition grid as the rows to add, with the
 * product as the expected sum. Operands are numbers >= 0.
 */
module PartialProductsGridView {
  import opened Digits
  import opened Sorting
  import PartialProducts
  import AdditionGridView

  /** A partial product as a row of the addition grid, not highlighted. */
  function ToRow(p: PartialProducts.PartialProduct): AdditionGridView.AdditionRow
  {
    AdditionGridView.AdditionRow(p.value, p.labelText, false)
  }

  /** The sort key `(a, b) => a.value - b.value` on rows. */
  function RowValue(r: AdditionGridView.AdditionRow): int
  {
    r.value
  }

  /**
   * `calculatePartialProducts` (lines 35-63): the lib calculator's loops,
   * pushing rows, then the stable sort by value. The rows are the lib's
   * list as rows; there is one per pair of nonzero digits; they ascend;
   * and they add up to `expectedSum` (lines 65-66).
   */
  method CalculatePartialProducts(multiplicand: nat, multiplier: nat) returns (rows: seq<AdditionGridView.AdditionRow>)
    ensures rows == Map(ToRow, PartialProducts.ExpectedPartials(multiplicand, multiplier))
    ensures |rows| == |NonzeroPlaces(multiplicand)| * |NonzeroPlaces(multiplier)|
    ensures SortedBy(rows, RowValue)
    ensures KeySum(rows, RowValue) == multiplicand * multiplier
  {
    var products := PartialProducts.CollectPartialProducts(multiplicand, multiplier);
    rows := SortBy(Map(ToRow, products), RowValue);
    SortByMap(ToRow, products, PartialProducts.Value, RowValue);
    SortByFacts(Map(ToRow, products), RowValue);
    PartialProducts.ExpectedPartialsCount(multiplicand, multiplier);
    PartialProducts.ExpectedPartialsSortedSum(multiplicand, multiplier);
    KeySumMap(ToRow, PartialProducts.ExpectedPartials(multiplicand, multiplier), PartialProducts.Value, RowValue);
  }

  /** A row of a list of non-negative values is at most the list's sum. */
  lemma {:induction false} RowBelowSum(rows: seq<AdditionGridView.AdditionRow>, k: nat)
    requires k < |rows|
    ensures rows[k].value <= KeySum(rows, RowValue)
  {
    KeySumNonneg(rows[1..]);
    if k > 0 {
      RowBelowSum(rows[1..], k - 1);
    }
  }

  lemma {:induction false} KeySumNonneg(rows: seq<AdditionGridView.AdditionRow>)
    ensures KeySum(rows, RowValue) >= 0
  {
    if rows != [] {
      KeySumNonneg(rows[1..]);
    }
  }

  /**
   * Every row is at most the product, so on the grid (one column wider
   * than the product) every row leaves the leftmost column blank.
   */
  lemma {:induction false} RowsLeaveCarryColumn(multiplicand: nat, multiplier: nat, k: nat, showAllCells: bool)
    requires k < |Map(ToRow, PartialProducts.ExpectedPartials(multiplicand, multiplier))|
    ensures var rows := Map(ToRow, PartialProducts.ExpectedPartials(multiplicand, multiplier));
            rows[k].value <= multiplicand * multiplier
            && 0 in AdditionGridView.RowSpacers(rows[k].value, AdditionGridView.MaxDigits(multiplicand * multiplier), showAllCells)
  {
    var rows := Map(ToRow, PartialProducts.ExpectedPartials(multiplicand, multiplier));
    PartialProducts.ExpectedPartialsSortedSum(multiplicand, multiplier);
    KeySumMap(ToRow, PartialProducts.ExpectedPartials(multiplicand, multiplier), PartialProducts.Value, RowValue);
    RowBelowSum(rows, k);
    AdditionGridView.SummandLeavesLeftColumn(rows[k].value, multiplicand * multiplier, showAllCells);
  }
}
