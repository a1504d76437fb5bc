/** What the region chart computes before it draws: the size of the inner plot
    area, the x and y domains, the zone ticks shared by the grid and the left
    axis, the last valid data point that the current-value annotation shows, and
    the optional band edges of the area range. Scales, axes and SVG drawing are
    not part of this module. An absent value (`None`) stands for a different
    thing in each place: an `undefined` size prop, a band accessor that is
    `null` or `undefined` (and the same value passed on as the edge), and for
    the annotation, that no point is valid. */
module RegionChart {
  import opened Wrappers

  // ---------------------------------------------------------------------------
  // Plot size
  // ---------------------------------------------------------------------------

  /** The size props as passed; an absent (`undefined`) prop takes its default. */
  datatype SizeProps = SizeProps(
    width: Option<real>, height: Option<real>,
    marginLeft: Option<real>, marginTop: Option<real>,
    marginRight: Option<real>, marginBottom: Option<real>)

  /** The size props after defaults are applied. */
  datatype Frame = Frame(
    width: real, height: real,
    marginLeft: real, marginTop: real,
    marginRight: real, marginBottom: real)

  const NoSizeProps := SizeProps(None, None, None, None, None, None)

  function ResolveSize(p: SizeProps): (f: Frame)
    ensures p.width.Some? ==> f.width == p.width.value
    ensures p.width.None? ==> f.width == 600.0
    ensures p.height.Some? ==> f.height == p.height.value
    ensures p.height.None? ==> f.height == 400.0
    ensures p.marginLeft.Some? ==> f.marginLeft == p.marginLeft.value
    ensures p.marginLeft.None? ==> f.marginLeft == 40.0
    ensures p.marginTop.Some? ==> f.marginTop == p.marginTop.value
    ensures p.marginTop.None? ==> f.marginTop == 10.0
    ensures p.marginRight.Some? ==> f.marginRight == p.marginRight.value
    ensures p.marginRight.None? ==> f.marginRight == 50.0
    ensures p.marginBottom.Some? ==> f.marginBottom == p.marginBottom.value
    ensures p.marginBottom.None? ==> f.marginBottom == 40.0
  {
    Frame(p.width.GetOr(600.0), p.height.GetOr(400.0),
          p.marginLeft.GetOr(40.0), p.marginTop.GetOr(10.0),
          p.marginRight.GetOr(50.0), p.marginBottom.GetOr(40.0))
  }

  /** The width left for the plot: the left margin, the plot and the right
      margin together make up the whole width. */
  function InnerWidth(f: Frame): (w: real)
    ensures f.marginLeft + w + f.marginRight == f.width
  {
    f.width - f.marginLeft - f.marginRight
  }

  /** The height left for the plot: the top margin, the plot and the bottom
      margin together make up the whole height. */
  function InnerHeight(f: Frame): (h: real)
    ensures f.marginTop + h + f.marginBottom == f.height
  {
    f.height - f.marginTop - f.marginBottom
  }

  /** With every size prop left at its default the plot area is 510 by 350. */
  lemma DefaultInnerArea()
    ensures InnerWidth(ResolveSize(NoSizeProps)) == 510.0
    ensures InnerHeight(ResolveSize(NoSizeProps)) == 350.0
  {
  }

  // ---------------------------------------------------------------------------
  // Accessor results and extents
  // ---------------------------------------------------------------------------

  /** What an accessor returns for a datum: `undefined`, `null` or a number
      (dates are taken by their millisecond timestamp). */
  datatype Value<T> = Undefined | Null | Defined(value: T)

  /** Anything but `undefined` counts as defined, `null` included. */
  predicate IsDefined<T>(v: Value<T>) {
    !v.Undefined?
  }

  /** An accessor applied to every datum, in data order. */
  function Values<D>(data: seq<D>, f: D -> Value<real>): (vs: seq<Value<real>>)
    ensures |vs| == |data|
    ensures forall i :: 0 <= i < |data| ==> vs[i] == f(data[i])
  {
    seq(|data|, i requires 0 <= i < |data| => f(data[i]))
  }

  datatype Range = Range(min: real, max: real)

  function Min(a: real, b: real): real { if a <= b then a else b }
  function Max(a: real, b: real): real { if a <= b then b else a }

  /** The extent of a list of values: the least and the greatest number in it,
      skipping `null` and `undefined`; none when it holds no number. */
  function Extent(vs: seq<Value<real>>): (r: Option<Range>)
    ensures r.None? <==> forall i :: 0 <= i < |vs| ==> !vs[i].Defined?
    ensures r.Some? ==> r.value.min <= r.value.max
    ensures r.Some? ==> forall i :: 0 <= i < |vs| && vs[i].Defined? ==> r.value.min <= vs[i].value <= r.value.max
    ensures r.Some? ==> Defined(r.value.min) in vs && Defined(r.value.max) in vs
    decreases |vs|
  {
    if vs == [] then None
    else
      var rest := Extent(vs[1..]);
      assert forall i :: 1 <= i < |vs| ==> vs[i] == vs[1..][i - 1];
      match vs[0]
      case Defined(v) =>
        if rest.None? then Some(Range(v, v))
        else Some(Range(Min(v, rest.value.min), Max(v, rest.value.max)))
      case _ => rest
  }

  // ---------------------------------------------------------------------------
  // The current-value annotation
  // ---------------------------------------------------------------------------

  /** A point the annotation may use: both its x and its y are defined. */
  predicate IsValidPoint<D>(x: D -> Value<real>, y: D -> Value<real>, d: D) {
    IsDefined(x(d)) && IsDefined(y(d))
  }

  /** The positions of the valid points, in increasing order: every position
      listed is valid and every valid position is listed. */
  function ValidIndices<D>(data: seq<D>, x: D -> Value<real>, y: D -> Value<real>): (idx: seq<nat>)
    ensures forall k :: 0 <= k < |idx| ==> idx[k] < |data| && IsValidPoint(x, y, data[idx[k]])
    ensures forall k, m :: 0 <= k < m < |idx| ==> idx[k] < idx[m]
    ensures forall i :: 0 <= i < |data| && IsValidPoint(x, y, data[i]) ==> i in idx
    decreases |data|
  {
    if data == [] then []
    else
      var n := |data| - 1;
      var init := ValidIndices(data[..n], x, y);
      assert forall k :: 0 <= k < |init| ==> data[..n][init[k]] == data[init[k]];
      if IsValidPoint(x, y, data[n]) then init + [n] else init
  }

  /** The valid points, in data order: the points at the valid positions, each
      once, in the order the positions come. */
  function ValidPoints<D>(data: seq<D>, x: D -> Value<real>, y: D -> Value<real>): (r: seq<D>)
    ensures |r| == |ValidIndices(data, x, y)| <= |data|
    ensures forall k :: 0 <= k < |r| ==> r[k] == data[ValidIndices(data, x, y)[k]]
    decreases |data|
  {
    if data == [] then []
    else
      var n := |data| - 1;
      var init := ValidPoints(data[..n], x, y);
      var initIdx := ValidIndices(data[..n], x, y);
      assert forall k :: 0 <= k < |init| ==> init[k] == data[initIdx[k]];
      assert data == data[..n] + [data[n]];
      if IsValidPoint(x, y, data[n]) then init + [data[n]] else init
  }

  /** The filter keeps exactly the valid points: each kept point is a valid
      point of the data, and each valid point of the data is kept. */
  lemma ValidPointsAreTheValidOnes<D>(data: seq<D>, x: D -> Value<real>, y: D -> Value<real>)
    ensures forall k :: 0 <= k < |ValidPoints(data, x, y)| ==>
      ValidPoints(data, x, y)[k] in data && IsValidPoint(x, y, ValidPoints(data, x, y)[k])
    ensures forall i :: 0 <= i < |data| && IsValidPoint(x, y, data[i]) ==> data[i] in ValidPoints(data, x, y)
  {
    var r, idx := ValidPoints(data, x, y), ValidIndices(data, x, y);
    forall i | 0 <= i < |data| && IsValidPoint(x, y, data[i])
      ensures data[i] in r
    {
      var k :| 0 <= k < |idx| && idx[k] == i;
      assert r[k] == data[i];
    }
  }

  /** The last element of a list, none for the empty list. */
  function Last<T>(s: seq<T>): (r: Option<T>)
    ensures r.None? <==> s == []
    ensures r.Some? ==> r.value == s[|s| - 1]
  {
    if s == [] then None else Some(s[|s| - 1])
  }

  /** The point the annotation is placed at: the last of the valid points. */
  function LastDataPoint<D>(data: seq<D>, x: D -> Value<real>, y: D -> Value<real>): Option<D> {
    Last(ValidPoints(data, x, y))
  }

  /** The position of the last valid point, searched from the end. */
  function LastValidIndex<D>(data: seq<D>, x: D -> Value<real>, y: D -> Value<real>): (r: Option<nat>)
    ensures r.Some? ==> r.value < |data| && IsValidPoint(x, y, data[r.value])
    ensures r.Some? ==> forall j :: r.value < j < |data| ==> !IsValidPoint(x, y, data[j])
    ensures r.None? ==> forall j :: 0 <= j < |data| ==> !IsValidPoint(x, y, data[j])
    decreases |data|
  {
    if data == [] then None
    else if IsValidPoint(x, y, data[|data| - 1]) then Some(|data| - 1)
    else LastValidIndex(data[..|data| - 1], x, y)
  }

  /** The annotated point is the valid point that comes last in data order, and
      there is one exactly when some point is valid. */
  lemma {:induction false} LastDataPointIsLastValid<D>(data: seq<D>, x: D -> Value<real>, y: D -> Value<real>)
    ensures LastDataPoint(data, x, y) ==
      match LastValidIndex(data, x, y)
      case None => None
      case Some(i) => Some(data[i])
    decreases |data|
  {
    if data != [] && !IsValidPoint(x, y, data[|data| - 1]) {
      var init := data[..|data| - 1];
      LastDataPointIsLastValid(init, x, y);
      match LastValidIndex(init, x, y)
      case None =>
      case Some(i) => assert init[i] == data[i];
    }
  }

  /** The y value the annotation shows, none when no point is valid (the
      accessor is then applied to `undefined`, which this model leaves open).
      It is never `undefined`, but a `null` y passes the validity test and is
      shown as it is. */
  function LastDataY<D>(data: seq<D>, x: D -> Value<real>, y: D -> Value<real>): (r: Option<Value<real>>)
    ensures r.None? <==> forall j :: 0 <= j < |data| ==> !IsValidPoint(x, y, data[j])
    ensures r.Some? ==> IsDefined(r.value)
    ensures r.Some? ==> exists j :: 0 <= j < |data| && IsValidPoint(x, y, data[j]) && y(data[j]) == r.value
    ensures r ==
      match LastValidIndex(data, x, y)
      case None => None
      case Some(i) => Some(y(data[i]))
  {
    LastDataPointIsLastValid(data, x, y);
    match LastDataPoint(data, x, y)
    case None => None
    case Some(d) => Some(y(d))
  }

  // ---------------------------------------------------------------------------
  // Band edges
  // ---------------------------------------------------------------------------

  /** The lower or upper band edge handed to the area range for one datum: the
      scaled accessor value when the accessor is given; when it is `null` or
      `undefined`, that same absent value is passed on. */
  function BandEdge<D>(edge: Option<D -> real>, yScale: real -> real, d: D): (r: Option<real>)
    ensures r.None? <==> edge.None?
    ensures r.Some? ==> r.value == yScale(edge.value(d))
  {
    match edge
    case None => None
    case Some(f) => Some(yScale(f(d)))
  }

  // ---------------------------------------------------------------------------
  // The chart's layout
  // ---------------------------------------------------------------------------

  /** The chart's props; `Z` is the zone table, passed through to the tick
      computation and otherwise not looked at. */
  datatype ChartProps<!D, Z> = ChartProps(
    size: SizeProps,
    data: seq<D>,
    x: D -> Value<real>,
    y: D -> Value<real>,
    y0: Option<D -> real>,
    y1: Option<D -> real>,
    zones: Z)

  /** Everything the chart computes before drawing. */
  datatype Layout = Layout(
    innerWidth: real,
    innerHeight: real,
    xDomain: Option<Range>,
    yDomain: Option<Range>,
    gridTicks: seq<real>,
    axisTicks: seq<real>,
    annotationX: real,
    annotationY: Option<Value<real>>)

  /** The chart's pre-render computations. `calculateYTicks` stands for the tick
      helper, which is called once on the y domain and the zones. */
  function ComputeLayout<D, Z>(p: ChartProps<D, Z>, calculateYTicks: (Option<Range>, Z) -> seq<real>): (l: Layout)
    ensures var f := ResolveSize(p.size);
      f.marginLeft + l.innerWidth + f.marginRight == f.width &&
      f.marginTop + l.innerHeight + f.marginBottom == f.height
    ensures l.gridTicks == l.axisTicks == calculateYTicks(l.yDomain, p.zones)
    ensures l.annotationX == l.innerWidth
    ensures l.xDomain.Some? ==> forall i :: 0 <= i < |p.data| && p.x(p.data[i]).Defined? ==>
      l.xDomain.value.min <= p.x(p.data[i]).value <= l.xDomain.value.max
    ensures l.yDomain.Some? ==> forall i :: 0 <= i < |p.data| && p.y(p.data[i]).Defined? ==>
      l.yDomain.value.min <= p.y(p.data[i]).value <= l.yDomain.value.max
    ensures l.yDomain.None? <==> forall i :: 0 <= i < |p.data| ==> !p.y(p.data[i]).Defined?
    ensures l.xDomain == Extent(Values(p.data, p.x)) && l.yDomain == Extent(Values(p.data, p.y))
    ensures l.annotationY == LastDataY(p.data, p.x, p.y)
    ensures l.annotationY.Some? ==> IsDefined(l.annotationY.value)
  {
    var f := ResolveSize(p.size);
    var innerWidth := InnerWidth(f);
    var innerHeight := InnerHeight(f);
    var xDomain := Extent(Values(p.data, p.x));
    var yDomain := Extent(Values(p.data, p.y));
    var yTicks := calculateYTicks(yDomain, p.zones);
    Layout(innerWidth, innerHeight, xDomain, yDomain, yTicks, yTicks, innerWidth, LastDataY(p.data, p.x, p.y))
  }
}
