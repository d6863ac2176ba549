/** jointplot.py: the checks on the variable list and `kind`, the choice of
    each marginal by the dtype of its samples, and the three rectangles of
    `_define_axes`. */
module Joint {
  import opened Results
  import opened Samples
  import opened Options
  import opened Kde

  // ---------------------------------------------------------------------------
  // _define_axes

  /** An axes rectangle in figure coordinates. */
  datatype Rect = Rect(left: real, bottom: real, width: real, height: real)
  {
    function Right(): real { left + width }
    function Top(): real { bottom + height }
  }

  const Left: real := 0.1
  const Bottom: real := 0.1
  const Width: real := 0.65
  const Height: real := 0.65
  /** The gap between the joint axes and each marginal. */
  const Gap: real := 0.02
  /** The depth of the marginal axes. */
  const Depth: real := 0.2

  /** The joint axes, the top marginal and the right marginal. */
  datatype Axes = Axes(join: Rect, histx: Rect, histy: Rect)

  function DefineAxes(): Axes
  {
    var sideStart := Left + Width + Gap;
    Axes(Rect(Left, Bottom, Width, Height),
         Rect(Left, sideStart, Width, Depth),
         Rect(sideStart, Bottom, Depth, Height))
  }

  /** Two rectangles share no interior point. */
  predicate Disjoint(a: Rect, b: Rect)
  {
    a.Right() <= b.left || b.Right() <= a.left || a.Top() <= b.bottom || b.Top() <= a.bottom
  }

  /** A rectangle lies inside the figure. */
  predicate InFigure(r: Rect)
  {
    0.0 <= r.left && 0.0 <= r.bottom && r.Right() <= 1.0 && r.Top() <= 1.0 && r.width > 0.0 && r.height > 0.0
  }

  /** The three axes fit in the figure without overlapping; the top marginal
      spans exactly the joint's width and the right one exactly its height,
      each a gap beyond the joint's far edge. */
  lemma AxesLayout()
    ensures var ax := DefineAxes();
            && InFigure(ax.join) && InFigure(ax.histx) && InFigure(ax.histy)
            && Disjoint(ax.join, ax.histx) && Disjoint(ax.join, ax.histy) && Disjoint(ax.histx, ax.histy)
            && ax.histx.left == ax.join.left && ax.histx.Right() == ax.join.Right()
            && ax.histy.bottom == ax.join.bottom && ax.histy.Top() == ax.join.Top()
            && ax.histx.bottom == ax.join.Top() + Gap && ax.histy.left == ax.join.Right() + Gap
  {
  }

  // ---------------------------------------------------------------------------
  // Marginals

  /** A marginal: a density histogram of the samples on the given bins
      (laid horizontally for the right marginal), or a KDE curve. */
  datatype Marginal =
    | Histogram(values: seq<Float>, bins: seq<int>, horizontal: bool)
    | Density(curve: Curve)

  /** Integer samples get a histogram on `get_bins`, anything else (unsigned
      and boolean samples too) `kdeplot` with its default bandwidth, whose
      estimate raises without a finite sample. */
  function MarginalOf(col: Column, rotated: bool, getBins: seq<Float> -> seq<int>, kde: KdeNumerics): (r: Result<Marginal>)
    requires Shaped(kde)
    ensures col.kind.IntKind? ==> r == Ok(Histogram(col.values, getBins(col.values), rotated))
    ensures !col.kind.IntKind? ==> (r.Err? <==> FastKde(col.values, 4.5, kde).Err?)
    ensures !col.kind.IntKind? && r.Ok? ==> r.value == Density(KdePlot(col.values, 4.5, rotated, kde).value)
  {
    if col.kind.IntKind? then Ok(Histogram(col.values, getBins(col.values), rotated))
    else
      var c :- KdePlot(col.values, 4.5, rotated, kde);
      Ok(Density(c))
  }

  /** The right marginal is the top marginal turned on its side: for the same
      samples it fails alike, a histogram keeps its bins and turns horizontal,
      and a KDE curve has its coordinates exchanged. */
  lemma MarginalRotation(col: Column, getBins: seq<Float> -> seq<int>, kde: KdeNumerics)
    requires Shaped(kde)
    ensures MarginalOf(col, true, getBins, kde).Ok? <==> MarginalOf(col, false, getBins, kde).Ok?
    ensures MarginalOf(col, false, getBins, kde).Ok? ==>
              var top := MarginalOf(col, false, getBins, kde).value;
              var side := MarginalOf(col, true, getBins, kde).value;
              && (top.Histogram? <==> side.Histogram?)
              && (top.Histogram? ==> side.bins == top.bins && side.horizontal && !top.horizontal)
              && (top.Density? ==> side.curve.xs == top.curve.ys && side.curve.ys == top.curve.xs)
  {
    RotationSwaps(col.values, 4.5, kde);
  }

  // ---------------------------------------------------------------------------
  // The whole plot

  /** The joint axes: its rectangle, its labels and the kind of panel. */
  datatype JointAxes = JointAxes(rect: Rect, xlabel: Name, ylabel: Name, kind: PlotKind)

  /** A marginal axes: its rectangle, what it shows, and the limits it copies
      from the joint axes along the shared direction. */
  datatype MarginalAxes = MarginalAxes(rect: Rect, marginal: Marginal, limits: (real, real))

  datatype JointFigure = JointFigure(figsize: (real, real), join: JointAxes, histx: MarginalAxes, histy: MarginalAxes)

  /** `len(None)` raises. */
  const NoVarnames: Error := TypeError("object of type 'NoneType' has no len()")
  const NotTwoVariables: Error := Exception("Number of variables to be plotted must 2")

  /** jointplot on the combined samples. `limits` stands for the x and y limits
      matplotlib gives the joint axes once the samples are drawn as the given
      kind of panel, which autoscales a scatter and a hexbin differently. */
  function Jointplot(trace: Trace, varnames: Option<seq<Name>>, figsize: Option<(real, real)>, kind: string,
                     limits: (seq<Float>, seq<Float>, PlotKind) -> ((real, real), (real, real)),
                     getBins: seq<Float> -> seq<int>, kde: KdeNumerics): (r: Result<JointFigure>)
    requires Shaped(kde)
    ensures varnames.None? ==> r == Err(NoVarnames)
    ensures varnames.Some? && |varnames.value| != 2 ==> r == Err(NotTwoVariables)
    ensures varnames.Some? && |varnames.value| == 2 ==>
              var x, y := varnames.value[0], varnames.value[1];
              && (x !in trace.data ==> r == Err(KeyError(x)))
              && (x in trace.data && y !in trace.data ==> r == Err(KeyError(y)))
              && (x in trace.data && y in trace.data && ParseKind(kind).Err? ==> r == Err(ParseKind(kind).error))
              && (x in trace.data && y in trace.data && ParseKind(kind).Ok? ==>
                    (r.Ok? <==> MarginalOf(trace.data[x], false, getBins, kde).Ok?
                                && MarginalOf(trace.data[y], true, getBins, kde).Ok?))
    ensures r.Ok? ==>
              var x, y := varnames.value[0], varnames.value[1];
              var lim := limits(trace.data[x].values, trace.data[y].values, ParseKind(kind).value);
              && r.value.figsize == (if figsize.Some? then figsize.value else (6.0, 6.0))
              && r.value.join == JointAxes(DefineAxes().join, x, y, ParseKind(kind).value)
              && r.value.histx == MarginalAxes(DefineAxes().histx, MarginalOf(trace.data[x], false, getBins, kde).value, lim.0)
              && r.value.histy == MarginalAxes(DefineAxes().histy, MarginalOf(trace.data[y], true, getBins, kde).value, lim.1)
  {
    var size := if figsize.Some? then figsize.value else (6.0, 6.0);
    if varnames.None? then Err(NoVarnames)
    else if |varnames.value| != 2 then Err(NotTwoVariables)
    else
      var ax := DefineAxes();
      var xname, yname := varnames.value[0], varnames.value[1];
      if xname !in trace.data then Err(KeyError(xname))
      else if yname !in trace.data then Err(KeyError(yname))
      else
        var x, y := trace.data[xname], trace.data[yname];
        var k :- ParseKind(kind);
        var mx :- MarginalOf(x, false, getBins, kde);
        var my :- MarginalOf(y, true, getBins, kde);
        var lim := limits(x.values, y.values, k);
        Ok(JointFigure(size, JointAxes(ax.join, xname, yname, k),
                       MarginalAxes(ax.histx, mx, lim.0), MarginalAxes(ax.histy, my, lim.1)))
  }
}
