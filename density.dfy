/** densityplot.py: the argument checks and normalisation, the dispatch of
    every (variable, trace) pair to a panel, and `_d_helper`, which cuts a
    float variable's KDE at its HPD interval or bins an integer variable
    between its HPD bounds. Drawing calls become the records below. */
module Density {
  import opened Results
  import opened Seqs
  import opened Samples
  import opened Options
  import opened Kde

  // ---------------------------------------------------------------------------
  // Point estimate

  datatype PointEstimate = Mean | Median

  /** `point_estimate` must be 'mean', 'median' or None. */
  function ParsePointEstimate(pe: Option<string>): (r: Result<Option<PointEstimate>>)
    ensures r.Err? <==> pe.Some? && pe.value != "mean" && pe.value != "median"
    ensures r.Err? ==> r.error == ValueError("Point estimate should be 'mean', 'median' or None")
    ensures r.Ok? ==> (r.value == None <==> pe == None)
    ensures r.Ok? ==> (r.value == Some(Mean) <==> pe == Some("mean"))
    ensures r.Ok? ==> (r.value == Some(Median) <==> pe == Some("median"))
  {
    match pe
    case None => Ok(None)
    case Some(s) =>
      if s == "mean" then Ok(Some(Mean))
      else if s == "median" then Ok(Some(Median))
      else Err(ValueError("Point estimate should be 'mean', 'median' or None"))
  }

  // ---------------------------------------------------------------------------
  // The HPD cut

  /** The positions of the grid points lying in the closed interval [lo, hi],
      in order: the boolean mask that selects the kept part of the curve. */
  function CutIndices(x: seq<real>, lo: real, hi: real): (idx: seq<nat>)
    ensures forall i :: 0 <= i < |idx| ==> idx[i] < |x| && lo <= x[idx[i]] <= hi
    ensures forall i, j :: 0 <= i < j < |idx| ==> idx[i] < idx[j]
  {
    if x == [] then []
    else
      var init := CutIndices(x[..|x| - 1], lo, hi);
      assert forall i :: 0 <= i < |init| ==> x[..|x| - 1][init[i]] == x[init[i]];
      if lo <= x[|x| - 1] <= hi then init + [|x| - 1] else init
  }

  /** The mask keeps every point inside the interval and nothing else. */
  lemma {:induction false} CutKeepsExactlyTheInterval(x: seq<real>, lo: real, hi: real, k: nat)
    requires k < |x|
    ensures k in CutIndices(x, lo, hi) <==> lo <= x[k] <= hi
  {
    var init := CutIndices(x[..|x| - 1], lo, hi);
    if k < |x| - 1 {
      CutKeepsExactlyTheInterval(x[..|x| - 1], lo, hi, k);
    } else {
      assert forall i :: 0 <= i < |init| ==> init[i] < |x| - 1;
    }
  }

  /** `xs[cut]`. */
  function Select(xs: seq<real>, idx: seq<nat>): (r: seq<real>)
    requires forall i :: 0 <= i < |idx| ==> idx[i] < |xs|
    ensures |r| == |idx| && forall i :: 0 <= i < |idx| ==> r[i] == xs[idx[i]]
  {
    seq(|idx|, i requires 0 <= i < |idx| => xs[idx[i]])
  }

  /** The integer bin edges of the histogram: xmin, xmin+1, ..., xmax+1. */
  function BinEdges(xmin: int, xmax: int): (bins: seq<int>)
    ensures |bins| == if xmax + 2 > xmin then xmax + 2 - xmin else 0
    ensures forall k :: 0 <= k < |bins| ==> bins[k] == xmin + k
  {
    if xmax + 2 > xmin then seq(xmax + 2 - xmin, k requires 0 <= k => xmin + k) else []
  }

  // ---------------------------------------------------------------------------
  // _d_helper

  /** What `_d_helper` obtains from helpers outside this model: the HPD
      interval of a float column and of an integer column, `np.mean`,
      `np.median`, and the numerics of `fast_kde`. */
  datatype DensityStats = DensityStats(
    hpd: (seq<Float>, real) -> (real, real),
    intHpd: (seq<Float>, real) -> (int, int),
    mean: seq<Float> -> real,
    median: seq<Float> -> real,
    kde: KdeNumerics)

  /** The curve of a float column (the whole grid, and the part kept by the
      HPD cut) or the bins of any other column. */
  datatype Body =
    | KdeBody(x: seq<real>, density: seq<real>, keptX: seq<real>, keptDensity: seq<real>)
    | HistBody(values: seq<Float>, bins: seq<int>)

  /** What `_d_helper` draws for one trace on a variable's panel: the title,
      the colour, the body, the ends of the drawn interval, whether the
      outline is drawn and how much shade, the HPD markers at height 0 and the
      point estimate. `source` is the index of the trace drawn. */
  datatype DensityMarks = DensityMarks(
    title: Name, source: nat, color: string, body: Body, xmin: real, xmax: real,
    outline: bool, shade: real, markers: Option<(real, real)>, estimate: Option<real>)

  /** The bandwidth `_d_helper` hands `fast_kde`: its default. */
  const DefaultBw: real := 4.5

  /** The options `_d_helper` receives. */
  datatype Style = Style(alpha: real, estimate: Option<PointEstimate>, hpdMarkers: string, outline: bool, shade: real)

  /** The ends of the drawn interval and what is drawn over it. */
  datatype Drawn = Drawn(xmin: real, xmax: real, body: Body)

  const EmptyCut: Error := IndexError("index 0 is out of bounds for axis 0 with size 0")

  /** A density on the grid `x` cut at the interval `hpd`: the first and last
      kept points are the ends, and indexing them raises when the cut keeps
      nothing. */
  function CutGrid(x: seq<real>, density: seq<real>, hpd: (real, real)): (r: Result<Drawn>)
    requires |x| == |density|
    ensures r.Ok? ==> r.value.body.KdeBody? && r.value.body.x == x && r.value.body.density == density
    ensures r.Err? <==> CutIndices(x, hpd.0, hpd.1) == []
    ensures r.Err? ==> r.error == EmptyCut
  {
    var cut := CutIndices(x, hpd.0, hpd.1);
    if cut == [] then Err(EmptyCut)
    else
      var keptX := Select(x, cut);
      Ok(Drawn(keptX[0], keptX[|keptX| - 1], KdeBody(x, density, keptX, Select(density, cut))))
  }

  /** The float branch of `_d_helper`: `fast_kde` on the samples, which
      raises as it does, its density laid on a linspace grid between the
      bounds it returns, then the cut at the HPD interval, which raises when
      no grid point lies in the interval. The drawn curve stays inside the
      interval: its ends satisfy `hpd_lo <= xmin <= xmax <= hpd_hi`, every
      kept point lies between them, and every grid point inside the interval
      is kept. */
  function KdeCut(values: seq<Float>, alpha: real, stats: DensityStats): (r: Result<Drawn>)
    requires Shaped(stats.kde)
    ensures FastKde(values, DefaultBw, stats.kde).Err? ==> r == Err(FastKde(values, DefaultBw, stats.kde).error)
    ensures FastKde(values, DefaultBw, stats.kde).Ok? ==>
              var e := FastKde(values, DefaultBw, stats.kde).value;
              var grid := Linspace(e.lower, e.upper, NX);
              var hpd := stats.hpd(values, alpha);
              && (r.Err? <==> forall k :: 0 <= k < NX ==> !(hpd.0 <= grid[k] <= hpd.1))
              && (r.Err? ==> r.error == EmptyCut)
              && (r.Ok? ==> r.value.body.KdeBody? && r.value.body.x == grid && r.value.body.density == e.density)
    ensures r.Ok? ==>
              var m := r.value;
              var hpd := stats.hpd(values, alpha);
              && m.body.KdeBody?
              && hpd.0 <= m.xmin <= m.xmax <= hpd.1
              && (forall k :: 0 <= k < |m.body.keptX| ==> m.xmin <= m.body.keptX[k] <= m.xmax)
              && (forall k :: 0 <= k < |m.body.x| && hpd.0 <= m.body.x[k] <= hpd.1 ==> m.body.x[k] in m.body.keptX)
  {
    var e :- FastKde(values, DefaultBw, stats.kde);
    var grid := Linspace(e.lower, e.upper, |e.density|);
    var hpd := stats.hpd(values, alpha);
    LinspaceSorted(e.lower, e.upper, |e.density|);
    CutEmptyIff(grid, hpd.0, hpd.1);
    var cut := CutGrid(grid, e.density, hpd);
    if cut.Err? then cut
    else
      CutWithinHpd(grid, e.density, hpd);
      cut
  }

  /** The cut keeps nothing exactly when no grid point lies in the interval. */
  lemma CutEmptyIff(x: seq<real>, lo: real, hi: real)
    ensures CutIndices(x, lo, hi) == [] <==> forall k :: 0 <= k < |x| ==> !(lo <= x[k] <= hi)
  {
    forall k | 0 <= k < |x| {
      CutKeepsExactlyTheInterval(x, lo, hi, k);
    }
  }

  /** On a grid that never decreases, the points the cut keeps run from its
      first to its last, and every grid point inside the interval is kept. */
  lemma {:induction false} CutOfSorted(x: seq<real>, lo: real, hi: real)
    requires forall i, j :: 0 <= i <= j < |x| ==> x[i] <= x[j]
    ensures var cut := CutIndices(x, lo, hi);
            && (forall k :: 0 <= k < |cut| ==> x[cut[0]] <= x[cut[k]] <= x[cut[|cut| - 1]])
            && (forall k :: 0 <= k < |x| && lo <= x[k] <= hi ==> k in cut)
  {
    var cut := CutIndices(x, lo, hi);
    forall k | 0 <= k < |x| && lo <= x[k] <= hi
      ensures k in cut
    {
      CutKeepsExactlyTheInterval(x, lo, hi, k);
    }
  }

  /** What the cut keeps of a grid that never decreases: the first kept point
      is the least, the last the greatest, all lie in the interval, and no
      grid point of the interval is missing. */
  lemma {:induction false} KeptWithin(x: seq<real>, lo: real, hi: real)
    requires forall i, j :: 0 <= i <= j < |x| ==> x[i] <= x[j]
    requires CutIndices(x, lo, hi) != []
    ensures var kept := Select(x, CutIndices(x, lo, hi));
            && lo <= kept[0] && kept[|kept| - 1] <= hi
            && (forall k :: 0 <= k < |kept| ==> kept[0] <= kept[k] <= kept[|kept| - 1])
            && (forall k :: 0 <= k < |x| && lo <= x[k] <= hi ==> x[k] in kept)
  {
    var cut := CutIndices(x, lo, hi);
    var kept := Select(x, cut);
    CutOfSorted(x, lo, hi);
    forall k | 0 <= k < |x| && lo <= x[k] <= hi
      ensures x[k] in kept
    {
      var i :| 0 <= i < |cut| && cut[i] == k;
      assert kept[i] == x[k];
    }
  }

  /** The cut curve stays inside the interval: its ends satisfy
      `hpd_lo <= xmin <= xmax <= hpd_hi`, every kept point lies between them,
      and every grid point inside the interval is kept. */
  lemma CutWithinHpd(x: seq<real>, density: seq<real>, hpd: (real, real))
    requires |x| == |density| && CutGrid(x, density, hpd).Ok?
    requires forall i, j :: 0 <= i <= j < |x| ==> x[i] <= x[j]
    ensures var m := CutGrid(x, density, hpd).value;
            && hpd.0 <= m.xmin <= m.xmax <= hpd.1
            && (forall k :: 0 <= k < |m.body.keptX| ==> m.xmin <= m.body.keptX[k] <= m.xmax)
            && (forall k :: 0 <= k < |x| && hpd.0 <= x[k] <= hpd.1 ==> x[k] in m.body.keptX)
  {
    KeptWithin(x, hpd.0, hpd.1);
  }

  /** The other branch of `_d_helper`: the samples binned at the integers
      from the HPD lower bound up to one past its upper bound. */
  function HistCut(values: seq<Float>, alpha: real, stats: DensityStats): (r: Drawn)
    ensures var (lo, hi) := stats.intHpd(values, alpha);
            && r.body.HistBody? && r.body.values == values && r.xmin == lo as real && r.xmax == hi as real
            && (lo <= hi ==> |r.body.bins| == hi - lo + 2 && r.body.bins[0] == lo && r.body.bins[|r.body.bins| - 1] == hi + 1)
            && forall k :: 0 < k < |r.body.bins| ==> r.body.bins[k] == r.body.bins[k - 1] + 1
  {
    var (lo, hi) := stats.intHpd(values, alpha);
    Drawn(lo as real, hi as real, HistBody(values, BinEdges(lo, hi)))
  }

  /** What `_d_helper` draws for trace `source`: the float or the
      integer branch, then the HPD markers at the ends and the point
      estimate. */
  function DHelper(col: Column, vname: Name, source: nat, c: string, style: Style, stats: DensityStats)
    : (r: Result<DensityMarks>)
    requires Shaped(stats.kde)
    ensures col.kind.FloatKind? ==> (r.Err? <==> KdeCut(col.values, style.alpha, stats).Err?)
    ensures col.kind.FloatKind? && r.Err? ==> r.error == KdeCut(col.values, style.alpha, stats).error
    ensures !col.kind.FloatKind? ==> r.Ok?
    ensures r.Ok? ==> r.value.title == vname && r.value.source == source && r.value.color == c
    ensures r.Ok? ==> r.value.outline == style.outline && r.value.shade == style.shade
    ensures r.Ok? ==> (r.value.markers.Some? <==> style.hpdMarkers != "")
    ensures r.Ok? && r.value.markers.Some? ==> r.value.markers.value == (r.value.xmin, r.value.xmax)
    ensures r.Ok? ==> (r.value.estimate.Some? <==> style.estimate.Some?)
    ensures r.Ok? && style.estimate == Some(Mean) ==> r.value.estimate == Some(stats.mean(col.values))
    ensures r.Ok? && style.estimate == Some(Median) ==> r.value.estimate == Some(stats.median(col.values))
    ensures r.Ok? ==> (r.value.body.KdeBody? <==> col.kind.FloatKind?)
  {
    var drawn :- if col.kind.FloatKind? then KdeCut(col.values, style.alpha, stats)
                 else Ok(HistCut(col.values, style.alpha, stats));
    var estimate := match style.estimate
      case None => None
      case Some(Mean) => Some(stats.mean(col.values))
      case Some(Median) => Some(stats.median(col.values));
    Ok(DensityMarks(vname, source, c, drawn.body, drawn.xmin, drawn.xmax, style.outline, style.shade,
                    if style.hpdMarkers != "" then Some((drawn.xmin, drawn.xmax)) else None, estimate))
  }

  // ---------------------------------------------------------------------------
  // The dispatch loop

  /** The normalised arguments the dispatch loop reads. */
  datatype DensitySetup = DensitySetup(traces: seq<Trace>, colors: seq<string>, style: Style, stats: DensityStats)

  ghost predicate Ready(d: DensitySetup)
  {
    Shaped(d.stats.kde)
  }

  /** What trace t draws on the panel of `vname`: nothing if it lacks the
      column, else `_d_helper` on the column's samples with the trace's
      colour. Reading the samples comes first; for a tabular trace it cannot
      fail. */
  function TraceMarks(d: DensitySetup, vname: Name, t: nat): (r: Result<Option<DensityMarks>>)
    requires Ready(d) && t < |d.traces|
    ensures r.Ok? ==> (r.value.Some? <==> vname in d.traces[t].columns)
    ensures r.Ok? && r.value.Some? ==> r.value.value.source == t && r.value.value.title == vname
                                       && t < |d.colors| && r.value.value.color == d.colors[t]
    ensures vname in d.traces[t].columns && Tabular(d.traces[t]) && t >= |d.colors| ==>
              r == Err(IndexError("list index out of range"))
    ensures Tabular(d.traces[t]) ==> r != Err(KeyError(vname))
  {
    if vname !in d.traces[t].columns then Ok(None)
    else if vname !in d.traces[t].data then Err(KeyError(vname))
    else if t >= |d.colors| then Err(IndexError("list index out of range"))
    else
      var m :- DHelper(d.traces[t].data[vname], vname, t, d.colors[t], d.style, d.stats);
      Ok(Some(m))
  }

  /** What each trace draws on the panel of `vname`, in trace order. */
  function Outcomes(d: DensitySetup, vname: Name): (outs: seq<Result<Option<DensityMarks>>>)
    requires Ready(d)
    ensures |outs| == |d.traces|
    ensures forall t :: 0 <= t < |d.traces| ==> outs[t] == TraceMarks(d, vname, t)
  {
    seq(|d.traces|, t requires 0 <= t < |d.traces| => TraceMarks(d, vname, t))
  }

  /** A run of outcomes collected in order: the first error, or every
      drawing made. */
  function Gather(outs: seq<Result<Option<DensityMarks>>>): Result<seq<DensityMarks>>
  {
    if outs == [] then Ok([])
    else
      var prev :- Gather(outs[..|outs| - 1]);
      var m :- outs[|outs| - 1];
      Ok(if m.Some? then prev + [m.value] else prev)
  }

  /** The panel of `vname`, or the error of the first trace that raises. */
  function Panel(d: DensitySetup, vname: Name): Result<seq<DensityMarks>>
    requires Ready(d)
  {
    Gather(Outcomes(d, vname))
  }

  /** Gathering succeeds exactly when no outcome is an error. */
  lemma {:induction false} GatherOkIff(outs: seq<Result<Option<DensityMarks>>>)
    ensures Gather(outs).Ok? <==> forall t :: 0 <= t < |outs| ==> outs[t].Ok?
  {
    if outs != [] {
      var init := outs[..|outs| - 1];
      GatherOkIff(init);
      assert forall t :: 0 <= t < |init| ==> init[t] == outs[t];
    }
  }

  /** The error gathered is that of the first outcome that is one. */
  lemma {:induction false} GatherFirstError(outs: seq<Result<Option<DensityMarks>>>, t: nat)
    requires t < |outs| && outs[t].Err? && forall u :: 0 <= u < t ==> outs[u].Ok?
    ensures Gather(outs) == Err(outs[t].error)
  {
    var init := outs[..|outs| - 1];
    if t < |outs| - 1 {
      GatherFirstError(init, t);
    } else {
      GatherOkIff(init);
    }
  }

  /** Once an outcome is an error, the later outcomes do not matter. */
  lemma {:induction false} GatherStops(outs: seq<Result<Option<DensityMarks>>>, n: nat)
    requires n <= |outs| && Gather(outs[..n]).Err?
    ensures Gather(outs) == Gather(outs[..n])
  {
    if n < |outs| {
      assert outs[..|outs| - 1][..n] == outs[..n];
      GatherStops(outs[..|outs| - 1], n);
    } else {
      assert outs[..n] == outs;
    }
  }

  /** Each outcome that draws names its own position. */
  ghost predicate Tagged(outs: seq<Result<Option<DensityMarks>>>)
  {
    forall t :: 0 <= t < |outs| && outs[t].Ok? && outs[t].value.Some? ==> outs[t].value.value.source == t
  }

  /** What is gathered are the drawings of the outcomes, in their order. */
  lemma {:induction false} GatherSources(outs: seq<Result<Option<DensityMarks>>>)
    requires Tagged(outs) && Gather(outs).Ok?
    ensures var p := Gather(outs).value;
            && (forall i :: 0 <= i < |p| ==> p[i].source < |outs| && outs[p[i].source] == Ok(Some(p[i])))
            && (forall i, j :: 0 <= i < j < |p| ==> p[i].source < p[j].source)
  {
    if outs != [] {
      var init := outs[..|outs| - 1];
      assert Tagged(init) by {
        assert forall t :: 0 <= t < |init| ==> init[t] == outs[t];
      }
      GatherSources(init);
      assert forall t :: 0 <= t < |init| ==> init[t] == outs[t];
    }
  }

  /** Every outcome that draws is gathered. */
  lemma {:induction false} GatherComplete(outs: seq<Result<Option<DensityMarks>>>, t: nat)
    requires Tagged(outs) && Gather(outs).Ok?
    requires t < |outs| && outs[t].Ok? && outs[t].value.Some?
    ensures exists i :: 0 <= i < |Gather(outs).value| && Gather(outs).value[i].source == t
  {
    var init := outs[..|outs| - 1];
    var prev := Gather(init).value;
    if t == |outs| - 1 {
      assert Gather(outs).value[|prev|].source == t;
    } else {
      assert Tagged(init) by {
        assert forall u :: 0 <= u < |init| ==> init[u] == outs[u];
      }
      assert init[t] == outs[t];
      GatherComplete(init, t);
      var i :| 0 <= i < |prev| && prev[i].source == t;
      assert Gather(outs).value[i] == prev[i];
    }
  }

  /** A panel holds one drawing per trace that has the variable, in trace
      order, with the variable as title and the trace's colour, and none for
      the traces without it. */
  lemma PanelSources(d: DensitySetup, vname: Name)
    requires Ready(d) && Panel(d, vname).Ok?
    ensures var p := Panel(d, vname).value;
            && (forall i :: 0 <= i < |p| ==>
                  p[i].source < |d.traces| && vname in d.traces[p[i].source].columns
                  && p[i].title == vname && p[i].source < |d.colors| && p[i].color == d.colors[p[i].source])
            && (forall i, j :: 0 <= i < j < |p| ==> p[i].source < p[j].source)
            && (forall t :: 0 <= t < |d.traces| && vname in d.traces[t].columns ==>
                  exists i :: 0 <= i < |p| && p[i].source == t)
  {
    var outs := Outcomes(d, vname);
    GatherSources(outs);
    GatherOkIff(outs);
    forall t | 0 <= t < |d.traces| && vname in d.traces[t].columns
      ensures exists i :: 0 <= i < |Gather(outs).value| && Gather(outs).value[i].source == t
    {
      GatherComplete(outs, t);
    }
  }

  /** A panel fails with the error of the first trace that raises. */
  lemma PanelFirstError(d: DensitySetup, vname: Name, t: nat)
    requires Ready(d) && t < |d.traces| && TraceMarks(d, vname, t).Err?
    requires forall u :: 0 <= u < t ==> TraceMarks(d, vname, u).Ok?
    ensures Panel(d, vname) == Err(TraceMarks(d, vname, t).error)
  {
    GatherFirstError(Outcomes(d, vname), t);
  }

  /** The panels of the first n variables, or the first error. */
  function PanelsUpTo(d: DensitySetup, varnames: seq<Name>, n: nat): (r: Result<seq<seq<DensityMarks>>>)
    requires Ready(d) && n <= |varnames|
    ensures r.Ok? ==> |r.value| == n
  {
    if n == 0 then Ok([])
    else
      var prev :- PanelsUpTo(d, varnames, n - 1);
      var panel :- Panel(d, varnames[n - 1]);
      Ok(prev + [panel])
  }

  /** Once a variable has raised, the later variables are never reached. */
  lemma {:induction false} PanelsUpToStops(d: DensitySetup, varnames: seq<Name>, n: nat, m: nat)
    requires Ready(d) && n <= m <= |varnames| && PanelsUpTo(d, varnames, n).Err?
    ensures PanelsUpTo(d, varnames, m) == PanelsUpTo(d, varnames, n)
  {
    if n < m {
      PanelsUpToStops(d, varnames, n, m - 1);
    }
  }

  /** When every panel is drawn, panel vi is the panel of variable vi. */
  lemma {:induction false} PanelsAreVariables(d: DensitySetup, varnames: seq<Name>, n: nat, vi: nat)
    requires Ready(d) && n <= |varnames| && PanelsUpTo(d, varnames, n).Ok? && vi < n
    ensures Panel(d, varnames[vi]).Ok?
    ensures PanelsUpTo(d, varnames, n).value[vi] == Panel(d, varnames[vi]).value
  {
    if vi < n - 1 {
      PanelsAreVariables(d, varnames, n - 1, vi);
      assert PanelsUpTo(d, varnames, n).value[vi] == PanelsUpTo(d, varnames, n - 1).value[vi];
    }
  }

  /** One pass of the inner loop: what trace t draws for `vname`. */
  method DrawTrace(d: DensitySetup, vname: Name, t: nat) returns (r: Result<Option<DensityMarks>>)
    requires Ready(d) && t < |d.traces|
    ensures r == TraceMarks(d, vname, t)
  {
    if vname !in d.traces[t].columns {
      return Ok(None);
    }
    if vname !in d.traces[t].data {
      return Err(KeyError(vname));
    }
    if t >= |d.colors| {
      return Err(IndexError("list index out of range"));
    }
    var m :- DHelper(d.traces[t].data[vname], vname, t, d.colors[t], d.style, d.stats);
    return Ok(Some(m));
  }

  /** The inner loop: trace after trace, draw variable `vname` where present. */
  method DrawPanel(d: DensitySetup, vname: Name) returns (r: Result<seq<DensityMarks>>)
    requires Ready(d)
    ensures r == Panel(d, vname)
  {
    ghost var outs := Outcomes(d, vname);
    var panel: seq<DensityMarks> := [];
    var t := 0;
    assert outs[..0] == [];
    while t < |d.traces|
      invariant 0 <= t <= |d.traces|
      invariant Gather(outs[..t]) == Ok(panel)
    {
      assert outs[..t + 1][..t] == outs[..t];
      var m := DrawTrace(d, vname, t);
      assert outs[..t + 1][t] == m;
      if m.Err? {
        GatherStops(outs, t + 1);
        return Err(m.error);
      }
      if m.value.Some? {
        panel := panel + [m.value.value];
      }
      t := t + 1;
    }
    assert outs[..t] == outs;
    return Ok(panel);
  }

  /** The outer loop: one panel per variable. */
  method DrawPanels(d: DensitySetup, varnames: seq<Name>) returns (r: Result<seq<seq<DensityMarks>>>)
    requires Ready(d)
    ensures r == PanelsUpTo(d, varnames, |varnames|)
  {
    var panels: seq<seq<DensityMarks>> := [];
    var vi := 0;
    while vi < |varnames|
      invariant 0 <= vi <= |varnames|
      invariant PanelsUpTo(d, varnames, vi) == Ok(panels)
    {
      var panel := DrawPanel(d, varnames[vi]);
      if panel.Err? {
        PanelsUpToStops(d, varnames, vi + 1, |varnames|);
        return Err(panel.error);
      }
      panels := panels + [panel.value];
      vi := vi + 1;
    }
    return Ok(panels);
  }

  // ---------------------------------------------------------------------------
  // The whole plot

  /** The legend: with several traces, one entry per model in its colour;
      with one trace, none. A colour list shorter than the models raises. */
  function Legend(ntraces: nat, models: seq<string>, colors: seq<string>): (r: Result<seq<(string, string)>>)
    ensures ntraces <= 1 ==> r == Ok([])
    ensures ntraces > 1 ==> (r.Ok? <==> |models| <= |colors|)
    ensures r.Err? ==> r.error == IndexError("list index out of range")
    ensures ntraces > 1 && r.Ok? ==>
              |r.value| == |models| && forall m :: 0 <= m < |models| ==> r.value[m] == (models[m], colors[m])
  {
    if ntraces <= 1 then Ok([])
    else if |models| > |colors| then Err(IndexError("list index out of range"))
    else Ok(seq(|models|, m requires 0 <= m < |models| => (models[m], colors[m])))
  }

  /** Everything densityplot sets on the figure: its size, one panel per
      variable, and the legend on the first panel. */
  datatype DensityFigure = DensityFigure(figsize: (real, real), panels: seq<seq<DensityMarks>>,
                                         legend: seq<(string, string)>)

  /** The argument checks and normalisation before the loop. */
  function Prepare(traces: seq<Trace>, models: Option<seq<string>>, pointEstimate: Option<string>,
                   colors: Colors, alpha: real, hpdMarkers: string, outline: bool, shade: real,
                   stats: DensityStats): (r: Result<(seq<string>, DensitySetup)>)
    ensures r.Err? <==> ParsePointEstimate(pointEstimate).Err? || NormaliseModels(models, |traces|).Err?
    ensures r.Err? ==> r.error == if ParsePointEstimate(pointEstimate).Err? then ParsePointEstimate(pointEstimate).error
                                  else NormaliseModels(models, |traces|).error
    ensures r.Ok? ==> r.value.0 == NormaliseModels(models, |traces|).value
    ensures r.Ok? ==> r.value.1.traces == traces && r.value.1.colors == ExpandColors(colors, |r.value.0|)
    ensures r.Ok? ==> r.value.1.style.estimate == ParsePointEstimate(pointEstimate).value
  {
    var estimate :- ParsePointEstimate(pointEstimate);
    var names :- NormaliseModels(models, |traces|);
    Ok((names, DensitySetup(traces, ExpandColors(colors, |names|),
                            Style(alpha, estimate, hpdMarkers, outline, shade), stats)))
  }

  /** matplotlib refuses a grid of subplots without rows. */
  const NoRows: Error := ValueError("Number of rows must be a positive integer, not 0")

  /** The whole of densityplot, with the figure built by the function. The
      `bw` argument is accepted but, as in the code, not passed on: the KDE
      uses its default bandwidth. */
  method Densityplot(traces: seq<Trace>, models: Option<seq<string>>, varnames: Option<seq<Name>>,
                     alpha: real, pointEstimate: Option<string>, colors: Colors, outline: bool,
                     hpdMarkers: string, shade: real, bw: real, figsize: Option<(real, real)>,
                     expand: (Trace, seq<Name>) -> seq<Name>, stats: DensityStats)
    returns (r: Result<DensityFigure>)
    requires Shaped(stats.kde)
    ensures var prep := Prepare(traces, models, pointEstimate, colors, alpha, hpdMarkers, outline, shade, stats);
            prep.Err? ==> r == Err(prep.error)
    ensures var prep := Prepare(traces, models, pointEstimate, colors, alpha, hpdMarkers, outline, shade, stats);
            prep.Ok? && Varnames(traces, varnames, expand) == [] ==> r == Err(NoRows)
    ensures var prep := Prepare(traces, models, pointEstimate, colors, alpha, hpdMarkers, outline, shade, stats);
            var vars := Varnames(traces, varnames, expand);
            prep.Ok? && vars != [] ==>
              match PanelsUpTo(prep.value.1, vars, |vars|)
              case Err(e) => r == Err(e)
              case Ok(panels) =>
                var legend := Legend(|traces|, prep.value.0, prep.value.1.colors);
                && (legend.Err? ==> r == Err(legend.error))
                && (legend.Ok? ==> r == Ok(DensityFigure(DefaultFigsize(figsize, |vars|), panels, legend.value)))
  {
    var prep :- Prepare(traces, models, pointEstimate, colors, alpha, hpdMarkers, outline, shade, stats);
    var names, d := prep.0, prep.1;
    var vars := SelectVarnames(traces, varnames, expand);
    var size := DefaultFigsize(figsize, |vars|);
    if vars == [] {
      return Err(NoRows);
    }
    var panels :- DrawPanels(d, vars);
    var legend :- Legend(|traces|, names, d.colors);
    return Ok(DensityFigure(size, panels, legend));
  }
}
