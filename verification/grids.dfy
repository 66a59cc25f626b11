/**
 * The nested "for each outer part, for each inner part, push" loops that the
 * calculators use, as a list in push order: row-major, outer index first.
 */
module Grids {

  /** The entries pushed for outer part `a` at outer index i, one per inner part. */
  function Row<A, B, T>(i: nat, a: A, inner: seq<B>, f: (nat, A, nat, B) -> T): (r: seq<T>)
    ensures |r| == |inner|
    ensures forall j :: 0 <= j < |inner| ==> r[j] == f(i, a, j, inner[j])
  {
    if inner == [] then [] else Row(i, a, inner[..|inner| - 1], f) + [f(i, a, |inner| - 1, inner[|inner| - 1])]
  }

  /** All entries, outer part by outer part. */
  function Grid<A, B, T>(outer: seq<A>, inner: seq<B>, f: (nat, A, nat, B) -> T): seq<T>
  {
    if outer == [] then [] else Grid(outer[..|outer| - 1], inner, f) + Row(|outer| - 1, outer[|outer| - 1], inner, f)
  }

  /** One entry per pair of parts. */
  lemma {:induction false} GridLength<A, B, T>(outer: seq<A>, inner: seq<B>, f: (nat, A, nat, B) -> T)
    ensures |Grid(outer, inner, f)| == |outer| * |inner|
  {
    if outer != [] {
      GridLength(outer[..|outer| - 1], inner, f);
      MulSucc(|outer| - 1, |inner|);
    }
  }

  lemma {:induction false} MulSucc(a: nat, b: nat)
    ensures (a + 1) * b == a * b + b
  {
  }

  lemma {:induction false} MulMono(a: nat, c: nat, b: nat)
    requires a <= c
    ensures a * b <= c * b
  {
  }

  /** Row-major layout: the entry for outer index i and inner index j sits at i * |inner| + j. */
  lemma {:induction false} GridIndex<A, B, T>(outer: seq<A>, inner: seq<B>, f: (nat, A, nat, B) -> T, i: nat, j: nat)
    requires i < |outer| && j < |inner|
    ensures i * |inner| + j < |Grid(outer, inner, f)|
    ensures Grid(outer, inner, f)[i * |inner| + j] == f(i, outer[i], j, inner[j])
  {
    var init := outer[..|outer| - 1];
    var prev := Grid(init, inner, f);
    GridLength(init, inner, f);
    GridLength(outer, inner, f);
    assert Grid(outer, inner, f) == prev + Row(|outer| - 1, outer[|outer| - 1], inner, f);
    MulSucc(i, |inner|);
    MulMono(i + 1, |outer|, |inner|);
    if i < |outer| - 1 {
      GridIndex(init, inner, f, i, j);
      MulMono(i + 1, |init|, |inner|);
    }
  }

  /** One more outer part appends its row. */
  lemma {:induction false} GridSnoc<A, B, T>(outer: seq<A>, a: A, inner: seq<B>, f: (nat, A, nat, B) -> T)
    ensures Grid(outer + [a], inner, f) == Grid(outer, inner, f) + Row(|outer|, a, inner, f)
  {
    assert (outer + [a])[..|outer|] == outer;
  }

  /** One more inner part appends one entry to the row. */
  lemma {:induction false} RowSnoc<A, B, T>(i: nat, a: A, inner: seq<B>, b: B, f: (nat, A, nat, B) -> T)
    ensures Row(i, a, inner + [b], f) == Row(i, a, inner, f) + [f(i, a, |inner|, b)]
  {
    assert (inner + [b])[..|inner|] == inner;
  }

  /** A non-empty grid is the grid of all but the last outer part, then the last part's row. */
  lemma {:induction false} GridUnfold<A, B, T>(outer: seq<A>, inner: seq<B>, f: (nat, A, nat, B) -> T)
    requires outer != []
    ensures Grid(outer, inner, f) == Grid(outer[..|outer| - 1], inner, f) + Row(|outer| - 1, outer[|outer| - 1], inner, f)
  {
  }

  /** Pushing the entry of inner index j extends the row over the first j inner parts by one. */
  lemma {:induction false} RowPrefixStep<A, B, T>(i: nat, a: A, inner: seq<B>, j: nat, f: (nat, A, nat, B) -> T)
    requires j < |inner|
    ensures Row(i, a, inner[..j + 1], f) == Row(i, a, inner[..j], f) + [f(i, a, j, inner[j])]
  {
    assert inner[..j + 1] == inner[..j] + [inner[j]];
    RowSnoc(i, a, inner[..j], inner[j], f);
  }

  /** Pushing the row of outer index i extends the grid over the first i outer parts by that row. */
  lemma {:induction false} GridPrefixStep<A, B, T>(outer: seq<A>, i: nat, inner: seq<B>, f: (nat, A, nat, B) -> T)
    requires i < |outer|
    ensures Grid(outer[..i + 1], inner, f) == Grid(outer[..i], inner, f) + Row(i, outer[i], inner, f)
  {
    assert outer[..i + 1] == outer[..i] + [outer[i]];
    GridSnoc(outer[..i], outer[i], inner, f);
  }
}
