/**
 * The map pins that stand for a whole geohash bucket of records, the count
 * title they show, and the mean used to place them.
 */
module SetAnnotations {
  import opened Wrappers
  import opened Numerics
  import opened Foreign

  // ---- `Collection<Double>.average` ----

  /** `reduce(0, +)`: the elements added left to right. */
  function Sum(xs: seq<real>): real {
    if xs == [] then 0.0 else Sum(xs[..|xs| - 1]) + xs[|xs| - 1]
  }

  /** `average`: 0 for an empty collection, otherwise the sum over the count. */
  function Average(xs: seq<real>): (r: real)
    ensures xs == [] ==> r == 0.0
    ensures xs != [] ==> r * |xs| as real == Sum(xs)
  {
    if xs == [] then 0.0 else Sum(xs) / |xs| as real
  }

  lemma {:induction false} SumBounds(xs: seq<real>, lo: real, hi: real)
    requires forall i :: 0 <= i < |xs| ==> lo <= xs[i] <= hi
    ensures |xs| as real * lo <= Sum(xs) <= |xs| as real * hi
  {
    if xs != [] {
      SumBounds(xs[..|xs| - 1], lo, hi);
    }
  }

  /** The mean of a non-empty collection lies between any bounds of its elements. */
  lemma AverageBounds(xs: seq<real>, lo: real, hi: real)
    requires xs != []
    requires forall i :: 0 <= i < |xs| ==> lo <= xs[i] <= hi
    ensures lo <= Average(xs) <= hi
  {
    SumBounds(xs, lo, hi);
    var n := |xs| as real;
    var r := Average(xs);
    assert r * n == Sum(xs);
  }

  // ---- "\(count)개" ----

  /** The counter suffix every bucket title ends with. */
  const CountSuffix: char := '개'

  /** Reads a count title back: a decimal number followed by the counter suffix. */
  function ParseCountTitle(t: string): Option<int> {
    if |t| >= 1 && t[|t| - 1] == CountSuffix then ParseDecimal(t[..|t| - 1]) else None
  }

  /** `"\(count)개"`: the decimal count followed by the counter suffix, which reads back as the count. */
  function CountTitle(count: int): (t: string)
    ensures ParseCountTitle(t) == Some(count)
    ensures |t| >= 2 && t[|t| - 1] == CountSuffix
  {
    var t := Decimal(count) + [CountSuffix];
    assert t[..|t| - 1] == Decimal(count);
    t
  }

  /** Different counts never share a title. */
  lemma CountTitleInjective(m: int, n: int)
    requires CountTitle(m) == CountTitle(n)
    ensures m == n
  {
    assert ParseCountTitle(CountTitle(m)) == Some(m);
  }

  // ---- The two bucket annotations ----

  /** `DangerSetAnnotation`: its initialiser stores the three fields as given. */
  datatype DangerSetAnnotation = DangerSetAnnotation(identifier: string, coordinate: Coordinate, count: int) {
    function Title(): (t: string)
      ensures ParseCountTitle(t) == Some(count)
    {
      CountTitle(count)
    }
  }

  /** `SafeSetAnnotation`: its initialiser stores the three fields as given. */
  datatype SafeSetAnnotation = SafeSetAnnotation(identifier: string, coordinate: Coordinate, count: int) {
    function Title(): (t: string)
      ensures ParseCountTitle(t) == Some(count)
    {
      CountTitle(count)
    }
  }
}
