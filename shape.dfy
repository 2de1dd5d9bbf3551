/** The prefix-scan combinator `cumulative` and the shape measures built on it (`calc_shape`).
    The hull, overlap and centroid computations themselves are foreign geometry and enter as
    functions that either produce numbers or fail; a failure becomes a row of NaN, as the source's
    try/except does. */
module Shape {
  import opened Wrappers
  import opened Floats
  import opened Decisions

  /** A point of the 3-D space: the two coordinates plus the character's decision number. */
  datatype Point3 = Point3(x: real, y: real, z: real)

  /** The foreign geometry: convex-hull (perimeter, area) in 2-D, the overlap with the four
      quadrants, the hull centroid, and (surface area, volume) in 3-D. `None` is an exception. */
  datatype Geometry = Geometry(
    size2: seq<Pair> -> Option<(real, real)>,
    overlap: seq<Pair> -> Option<(real, real, real, real)>,
    centroid: seq<Pair> -> Option<(real, real)>,
    size3: seq<Point3> -> Option<(real, real)>)

  /** `func` applied to every non-empty prefix, in order (the list comprehension of `cumulative`). */
  function Prefixes<T, R>(f: seq<T> -> R, v: seq<T>): (r: seq<R>)
    ensures |r| == |v|
    ensures forall i :: 0 <= i < |v| ==> r[i] == f(v[..i + 1])
  {
    if v == [] then []
    else
      var front := Prefixes(f, v[..|v| - 1]);
      TakeOfTake(v, |v| - 1);
      assert v[..|v|] == v;
      front + [f(v)]
  }

  lemma TakeOfTake<T>(v: seq<T>, k: nat)
    requires k <= |v|
    ensures forall i :: 0 <= i <= k ==> v[..k][..i] == v[..i]
  {
  }

  /** `cumulative(func)(values)`: the prefix results stacked; stacking nothing raises. */
  function Cumulative<T, R>(f: seq<T> -> R, v: seq<T>): (r: Result<seq<R>>)
    ensures r.Ok? <==> |v| > 0
    ensures r.Ok? ==> |r.value| == |v| && forall i :: 0 <= i < |v| ==> r.value[i] == f(v[..i + 1])
  {
    if v == [] then Err(NothingToConcatenate) else Ok(Prefixes(f, v))
  }

  /** A pair-valued measure, NaN in both entries when it fails. */
  function Guard2<T>(m: seq<T> -> Option<(real, real)>, c: seq<T>): (r: (Num, Num))
    ensures m(c).None? ==> r.0.NaN? && r.1.NaN?
    ensures m(c).Some? ==> r == (Fin(m(c).value.0), Fin(m(c).value.1))
  {
    match m(c)
    case None => (NaN, NaN)
    case Some((a, b)) => (Fin(a), Fin(b))
  }

  function Guard4(m: seq<Pair> -> Option<(real, real, real, real)>, c: seq<Pair>): (r: (Num, Num, Num, Num))
    ensures m(c).None? ==> r.0.NaN? && r.1.NaN? && r.2.NaN? && r.3.NaN?
    ensures m(c).Some? ==> r == (Fin(m(c).value.0), Fin(m(c).value.1), Fin(m(c).value.2), Fin(m(c).value.3))
  {
    match m(c)
    case None => (NaN, NaN, NaN, NaN)
    case Some((a, b, q, d)) => (Fin(a), Fin(b), Fin(q), Fin(d))
  }

  /** The observer's point of view, prepended to the trajectory for the pov measures. */
  const Pov := Pair(6.0, 0.0)

  datatype ShapeRow2 = ShapeRow2(
    perimeter: Num, area: Num, povPerimeter: Num, povArea: Num,
    q1: Num, q2: Num, q3: Num, q4: Num)

  datatype ShapeRow3 = ShapeRow3(surfaceArea: Num, volume: Num)

  /** `calc_shape` on 2-D coordinates: the hull size of every prefix, the hull size of the prefix
      with the point of view prepended (its first row, the point of view alone, is dropped) and the
      quadrant overlaps of every prefix. */
  function CalcShape2(coords: seq<Pair>, g: Geometry): Result<seq<ShapeRow2>>
  {
    var size :- Cumulative((c: seq<Pair>) => Guard2(g.size2, c), coords);
    var pov :- Cumulative((c: seq<Pair>) => Guard2(g.size2, c), [Pov] + coords);
    var overlap :- Cumulative((c: seq<Pair>) => Guard4(g.overlap, c), coords);
    Ok(seq(|size|, i requires 0 <= i < |size| =>
      ShapeRow2(size[i].0, size[i].1, pov[i + 1].0, pov[i + 1].1,
                overlap[i].0, overlap[i].1, overlap[i].2, overlap[i].3)))
  }

  /** `calc_shape` on 3-D coordinates: the hull surface area and volume of every prefix. */
  function CalcShape3(coords: seq<Point3>, g: Geometry): Result<seq<ShapeRow3>>
  {
    var size :- Cumulative((c: seq<Point3>) => Guard2(g.size3, c), coords);
    Ok(seq(|size|, i requires 0 <= i < |size| => ShapeRow3(size[i].0, size[i].1)))
  }

  /** Both shape tables exist exactly for non-empty coordinates and then have one row per trial. */
  lemma ShapeDefinedIffNonEmpty(coords: seq<Pair>, coords3: seq<Point3>, g: Geometry)
    ensures CalcShape2(coords, g).Ok? <==> |coords| > 0
    ensures CalcShape2(coords, g).Ok? ==> |CalcShape2(coords, g).value| == |coords|
    ensures CalcShape3(coords3, g).Ok? <==> |coords3| > 0
    ensures CalcShape3(coords3, g).Ok? ==> |CalcShape3(coords3, g).value| == |coords3|
  {
    if |coords| > 0 {
      assert Cumulative((c: seq<Pair>) => Guard2(g.size2, c), [Pov] + coords).Ok?;
    }
  }

  /** Row i of the 2-D table: the measures of trials 0..i, the pov measures of the point of view
      followed by trials 0..i. */
  lemma ShapeRow2At(coords: seq<Pair>, g: Geometry, i: nat)
    requires i < |coords|
    ensures CalcShape2(coords, g).Ok?
    ensures var row := CalcShape2(coords, g).value[i];
      && (row.perimeter, row.area) == Guard2(g.size2, coords[..i + 1])
      && (row.povPerimeter, row.povArea) == Guard2(g.size2, [Pov] + coords[..i + 1])
      && (row.q1, row.q2, row.q3, row.q4) == Guard4(g.overlap, coords[..i + 1])
  {
    ShapeDefinedIffNonEmpty(coords, [], g);
    assert ([Pov] + coords)[..i + 2] == [Pov] + coords[..i + 1];
  }

  /** A failing metric turns only its own row into NaN: a row depends on nothing but its prefix. */
  lemma ShapeRowsArePrefixLocal(coords: seq<Pair>, other: seq<Pair>, g: Geometry, i: nat)
    requires i < |coords| && i < |other| && coords[..i + 1] == other[..i + 1]
    ensures CalcShape2(coords, g).Ok? && CalcShape2(other, g).Ok?
    ensures CalcShape2(coords, g).value[i] == CalcShape2(other, g).value[i]
  {
    ShapeRow2At(coords, g, i);
    ShapeRow2At(other, g, i);
  }

  /** A hull that fails on trials 0..i gives NaN sizes in row i; one that succeeds gives its numbers. */
  lemma FailedSizeIsNaN(coords: seq<Pair>, g: Geometry, i: nat)
    requires i < |coords| && g.size2(coords[..i + 1]).None?
    ensures CalcShape2(coords, g).Ok?
    ensures CalcShape2(coords, g).value[i].perimeter.NaN? && CalcShape2(coords, g).value[i].area.NaN?
  {
    ShapeRow2At(coords, g, i);
  }

  lemma ShapeRow3At(coords: seq<Point3>, g: Geometry, i: nat)
    requires i < |coords|
    ensures CalcShape3(coords, g).Ok?
    ensures var row := CalcShape3(coords, g).value[i];
      (row.surfaceArea, row.volume) == Guard2(g.size3, coords[..i + 1])
  {
  }
}
