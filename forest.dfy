/** forestplot.py: the argument normalisation, the quantile levels, the chain
    offsets, the R-hat / n_eff columns, the row-by-row layout loop with its
    labels, trees, diagnostic points and shaded bands, and the axis limits
    derived from them. Drawing calls become the records below. */
module Forest {
  import opened Results
  import opened Seqs
  import opened Samples
  import opened Options

  // ---------------------------------------------------------------------------
  // Quantile levels

  /** The quantile levels `qlist` for a (1-alpha) credible interval, with or
      without the quartiles. */
  function Qlist(alpha: real, quartiles: bool): (q: seq<real>)
    ensures |q| == if quartiles then 5 else 3
    ensures q[0] == alpha / 2.0 && q[|q| - 1] == 1.0 - alpha / 2.0 && q[|q| / 2] == 0.5
    ensures quartiles ==> q[1] == 0.25 && q[3] == 0.75
  {
    if quartiles then [alpha / 2.0, 0.25, 0.5, 0.75, 1.0 - alpha / 2.0]
    else [alpha / 2.0, 0.5, 1.0 - alpha / 2.0]
  }

  /** The largest alpha for which the levels are in increasing order. */
  function AlphaBound(quartiles: bool): real
  {
    if quartiles then 0.5 else 1.0
  }

  /** The levels are strictly increasing exactly when alpha is below 0.5
      (0.25 and 0.75 sit between alpha/2 and 1-alpha/2) or, without quartiles,
      below 1. */
  lemma QlistIncreasingIff(alpha: real, quartiles: bool)
    ensures StrictlyIncreasing(Qlist(alpha, quartiles), RealLess) <==> alpha < AlphaBound(quartiles)
  {
    var q := Qlist(alpha, quartiles);
    if alpha < AlphaBound(quartiles) {
      forall i, j | 0 <= i < j < |q| ensures RealLess(q[i], q[j]) {
      }
    } else {
      assert !RealLess(q[0], q[1]);
    }
  }

  /** `np.unique(qlist)`: the levels, sorted and without repeats. */
  function UniqueLevels(alpha: real, quartiles: bool): (r: seq<real>)
    ensures StrictlyIncreasing(r, RealLess)
    ensures forall x :: x in r <==> x in Qlist(alpha, quartiles)
    ensures 1 <= |r| <= |Qlist(alpha, quartiles)|
  {
    RealLessIsStrictTotalOrder();
    var q := Qlist(alpha, quartiles);
    var r := SortedUnique(q, RealLess);
    assert q[0] in r;
    r
  }

  /** `np.unique` leaves the levels as they are (all 5, or all 3) exactly when
      alpha is below the bound; otherwise it drops or reorders some. */
  lemma UniqueKeepsQlistIff(alpha: real, quartiles: bool)
    ensures UniqueLevels(alpha, quartiles) == Qlist(alpha, quartiles) <==> alpha < AlphaBound(quartiles)
  {
    QlistIncreasingIff(alpha, quartiles);
    RealLessIsStrictTotalOrder();
    if alpha < AlphaBound(quartiles) {
      SortedUniqueOfIncreasing(Qlist(alpha, quartiles), RealLess);
    }
  }

  /** The rows that `.loc[np.unique(qlist)]` selects from quantiles indexed by
      `qlist`: for each distinct level, in increasing order, every row carrying
      that label. So the levels drawn are `qlist` sorted with its repeats kept,
      always as many as `qlist` has. */
  function Levels(alpha: real, quartiles: bool): (r: seq<real>)
    ensures |r| == |Qlist(alpha, quartiles)|
    ensures forall i, j :: 0 <= i <= j < |r| ==> r[i] <= r[j]
    ensures r[|r| / 2] == 0.5
  {
    var a := alpha / 2.0;
    if quartiles then
      if alpha <= 0.5 then [a, 0.25, 0.5, 0.75, 1.0 - a]
      else if alpha <= 1.0 then [0.25, a, 0.5, 1.0 - a, 0.75]
      else if alpha <= 1.5 then [0.25, 1.0 - a, 0.5, a, 0.75]
      else [1.0 - a, 0.25, 0.5, 0.75, a]
    else if alpha <= 1.0 then [a, 0.5, 1.0 - a]
    else [1.0 - a, 0.5, a]
  }

  /** `r` is `q` with its entries moved by the one-to-one index map `p`. */
  predicate RearrangedBy(r: seq<real>, q: seq<real>, p: seq<nat>)
  {
    && |r| == |q| == |p|
    && (forall i :: 0 <= i < |p| ==> p[i] < |q| && r[i] == q[p[i]])
    && (forall i, j :: 0 <= i < j < |p| ==> p[i] != p[j])
  }

  /** The levels are `qlist` rearranged, each level kept as often as it
      occurs; below the bound they are `qlist` itself. */
  lemma LevelsRearrangeQlist(alpha: real, quartiles: bool)
    ensures exists p :: RearrangedBy(Levels(alpha, quartiles), Qlist(alpha, quartiles), p)
    ensures alpha < AlphaBound(quartiles) ==> Levels(alpha, quartiles) == Qlist(alpha, quartiles)
  {
    var r, q := Levels(alpha, quartiles), Qlist(alpha, quartiles);
    var p: seq<nat> := LevelOrder(alpha, quartiles);
    if quartiles {
      assert r == [q[p[0]], q[p[1]], q[p[2]], q[p[3]], q[p[4]]];
    } else {
      assert r == [q[p[0]], q[p[1]], q[p[2]]];
    }
    assert RearrangedBy(r, q, p);
  }

  /** Where each level of `qlist` goes when sorted. */
  function LevelOrder(alpha: real, quartiles: bool): (p: seq<nat>)
    ensures |p| == LevelCount(quartiles)
    ensures forall i :: 0 <= i < |p| ==> p[i] < |p|
    ensures forall i, j :: 0 <= i < j < |p| ==> p[i] != p[j]
  {
    if quartiles then
      if alpha <= 0.5 then [0, 1, 2, 3, 4]
      else if alpha <= 1.0 then [1, 0, 2, 4, 3]
      else if alpha <= 1.5 then [1, 4, 2, 0, 3]
      else [4, 1, 2, 3, 0]
    else if alpha <= 1.0 then [0, 1, 2] else [2, 1, 0]
  }

  /** Every level drawn is a label of `np.unique(qlist)`, and every such label
      selects at least one row. */
  lemma LevelsAreUniqueLabels(alpha: real, quartiles: bool)
    ensures forall x :: x in Levels(alpha, quartiles) <==> x in UniqueLevels(alpha, quartiles)
  {
    var r, q := Levels(alpha, quartiles), Qlist(alpha, quartiles);
    forall x ensures x in r <==> x in q {
      if quartiles {
        assert x in q <==> x == q[0] || x == q[1] || x == q[2] || x == q[3] || x == q[4];
        assert x in r <==> x == r[0] || x == r[1] || x == r[2] || x == r[3] || x == r[4];
      } else {
        assert x in q <==> x == q[0] || x == q[1] || x == q[2];
        assert x in r <==> x == r[0] || x == r[1] || x == r[2];
      }
    }
  }

  /** The quantiles of one column at the given levels. */
  function QuantileRow(levels: seq<real>, quantile: real -> real): (row: seq<real>)
    ensures |row| == |levels| && forall k :: 0 <= k < |levels| ==> row[k] == quantile(levels[k])
  {
    seq(|levels|, k requires 0 <= k < |levels| => quantile(levels[k]))
  }

  /** The quantiles with the outermost two replaced by the HPD bounds. */
  function WithHpd(q: seq<real>, hpd: (real, real)): (r: seq<real>)
    requires |q| > 0
    ensures |r| == |q| && r[|q| - 1] == hpd.1
    ensures |q| > 1 ==> r[0] == hpd.0
    ensures forall k :: 0 < k < |q| - 1 ==> r[k] == q[k]
  {
    q[0 := hpd.0][|q| - 1 := hpd.1]
  }

  /** Overwrites the first and the last quantile with the HPD bounds, in place. */
  method SubstituteHpd(quants: array<real>, hpd: (real, real))
    requires quants.Length > 0
    modifies quants
    ensures quants[..] == WithHpd(old(quants[..]), hpd)
  {
    quants[0] := hpd.0;
    quants[quants.Length - 1] := hpd.1;
  }

  // ---------------------------------------------------------------------------
  // One tree

  /** The marks `_plot_tree` draws at height `y`: the outer bar, the inner
      (quartile) bar when quartiles are shown, and the median dot. */
  datatype TreeMark = TreeMark(y: real, outer: (real, real), inner: Option<(real, real)>, median: real, color: string)

  /** How many quantiles `_plot_tree` indexes into. */
  function MinTiles(quartiles: bool): nat
  {
    if quartiles then 4 else 2
  }

  /** What `_plot_tree` draws for one chain. The bars and the
      median are read from fixed positions of `ntiles`, so too short a list
      raises IndexError. */
  function PlotTree(y: real, ntiles: seq<real>, quartiles: bool, c: string): (r: Result<TreeMark>)
    ensures r.Ok? <==> |ntiles| >= MinTiles(quartiles)
    ensures r.Err? ==> r.error == IndexError("index out of bounds")
    ensures r.Ok? ==> r.value.y == y && r.value.color == c
    ensures r.Ok? ==> r.value.outer == (ntiles[0], ntiles[|ntiles| - 1])
    ensures r.Ok? ==> (r.value.inner.Some? <==> quartiles)
    ensures r.Ok? && quartiles ==> r.value.inner.value == (ntiles[1], ntiles[3]) && r.value.median == ntiles[2]
    ensures r.Ok? && !quartiles ==> r.value.median == ntiles[1]
  {
    if |ntiles| < MinTiles(quartiles) then Err(IndexError("index out of bounds"))
    else if quartiles then
      Ok(TreeMark(y, (ntiles[0], ntiles[|ntiles| - 1]), Some((ntiles[1], ntiles[3])), ntiles[2], c))
    else
      Ok(TreeMark(y, (ntiles[0], ntiles[|ntiles| - 1]), None, ntiles[1], c))
  }

  // ---------------------------------------------------------------------------
  // Chains and diagnostic columns

  /** `(-1) ** i`. */
  function Sign(i: nat): real
  {
    if i % 2 == 0 then 1.0 else -1.0
  }

  /** How far the k-th chain (k >= 1) sits from the variable's row: (k + 1)/2
      chain spacings, with true division. */
  function HalfSteps(spacing: real, k: nat): real
  {
    spacing * ((k + 1) as real / 2.0)
  }

  /** The vertical offsets of a variable's chains: 0 for the first chain,
      then chain i+1 at (i + 2)/2 spacings, upwards for even i and downwards
      for odd i. */
  function Offsets(spacing: real, nchains: nat): (off: seq<real>)
    ensures |off| == if nchains == 0 then 1 else nchains
    ensures off[0] == 0.0
    ensures forall i :: 1 <= i < |off| ==> off[i] == Sign(i - 1) * HalfSteps(spacing, i)
  {
    [0.0] + seq(if nchains == 0 then 0 else nchains - 1,
                i requires 0 <= i => spacing * ((i + 2) as real / 2.0) * Sign(i))
  }

  /** With a positive spacing the chains alternate above and below the
      variable's row, each further out than the one before, so no two chains
      share a height. */
  lemma OffsetsAlternateOutwards(spacing: real, nchains: nat, i: nat, j: nat)
    requires spacing > 0.0 && i < j < |Offsets(spacing, nchains)|
    ensures j % 2 == 1 ==> Offsets(spacing, nchains)[j] > 0.0
    ensures j % 2 == 0 ==> Offsets(spacing, nchains)[j] < 0.0
    ensures Abs(Offsets(spacing, nchains)[i]) < Abs(Offsets(spacing, nchains)[j])
    ensures Offsets(spacing, nchains)[i] != Offsets(spacing, nchains)[j]
  {
    var off := Offsets(spacing, nchains);
    HalfStepsIncrease(spacing, i, j);
    SignedStep(j - 1, HalfSteps(spacing, j));
    if i > 0 {
      HalfStepsIncrease(spacing, 0, i);
      SignedStep(i - 1, HalfSteps(spacing, i));
    }
  }

  /** `(-1) ** k * x` for a positive x: x itself for even k, -x for odd k. */
  lemma SignedStep(k: nat, x: real)
    requires x > 0.0
    ensures k % 2 == 0 ==> Sign(k) * x == x
    ensures k % 2 == 1 ==> Sign(k) * x == -x
    ensures Abs(Sign(k) * x) == x
  {
  }

  function Abs(x: real): real
  {
    if x < 0.0 then -x else x
  }

  lemma HalfStepsIncrease(spacing: real, i: nat, j: nat)
    requires spacing > 0.0 && i < j
    ensures 0.0 < HalfSteps(spacing, j)
    ensures HalfSteps(spacing, i) < HalfSteps(spacing, j)
  {
  }

  /** The chain count of every trace. pandas raises when a table has no
      columns at all. */
  function NChains(traces: seq<Trace>): (r: Result<seq<nat>>)
    ensures r.Err? <==> exists h :: 0 <= h < |traces| && traces[h].columns == []
    ensures r.Err? ==> r.error.IndexError?
    ensures r.Ok? ==> |r.value| == |traces|
    ensures r.Ok? ==> forall h :: 0 <= h < |traces| ==> r.value[h] == ChainCount(traces[h]) >= 1
  {
    if exists h :: 0 <= h < |traces| && traces[h].columns == [] then
      Err(IndexError("index 0 is out of bounds"))
    else
      Ok(seq(|traces|, h requires 0 <= h < |traces| => ChainCount(traces[h])))
  }

  /** Per trace: the diagnostic is shown iff it is enabled and the trace has
      several chains (used for R-hat and for n_eff alike). */
  function DiagnosticFlags(enabled: bool, nchains: seq<nat>): (r: seq<bool>)
    ensures |r| == |nchains|
    ensures forall h :: 0 <= h < |nchains| ==> (r[h] <==> enabled && nchains[h] > 1)
  {
    seq(|nchains|, h requires 0 <= h < |nchains| => enabled && nchains[h] > 1)
  }

  /** `np.any`. */
  predicate Any(bs: seq<bool>)
  {
    exists h :: 0 <= h < |bs| && bs[h]
  }

  /** The grid's `width_ratios`: `[3]` for the intervals, then a `1` for the
      R-hat column and a `1` for the n_eff column when they are shown. */
  function WidthRatios(plotRhat: seq<bool>, plotNeff: seq<bool>): (ratios: seq<int>)
    ensures |ratios| == 1 + (if Any(plotRhat) then 1 else 0) + (if Any(plotNeff) then 1 else 0)
    ensures ratios[0] == 3 && forall k :: 1 <= k < |ratios| ==> ratios[k] == 1
  {
    var nsp := 1 + (if Any(plotRhat) then 1 else 0) + (if Any(plotNeff) then 1 else 0);
    [3] + seq(nsp - 1, _ => 1)
  }

  /** The diagnostic columns exist only if some trace has several chains. */
  lemma DiagnosticColumnsNeedChains(rhat: bool, neff: bool, nchains: seq<nat>)
    ensures |WidthRatios(DiagnosticFlags(rhat, nchains), DiagnosticFlags(neff, nchains))| > 1 ==>
              exists h :: 0 <= h < |nchains| && nchains[h] > 1
    ensures Any(DiagnosticFlags(rhat, nchains)) <==> rhat && exists h :: 0 <= h < |nchains| && nchains[h] > 1
  {
    var flags := DiagnosticFlags(rhat, nchains);
    if rhat && exists h :: 0 <= h < |nchains| && nchains[h] > 1 {
      var h :| 0 <= h < |nchains| && nchains[h] > 1;
      assert flags[h];
    }
  }

  // ---------------------------------------------------------------------------
  // The layout loop

  /** What forestplot obtains from helpers outside this model, for trace `h`,
      variable `v` and chain `j`: the quantile at a level, the column's HPD
      interval, and the R-hat and n_eff diagnostics. */
  datatype ForestStats = ForestStats(
    quantile: (nat, Name, nat, real) -> real,
    hpd: (nat, Name, nat) -> (real, real),
    rhat: (nat, Name) -> real,
    neff: (nat, Name) -> real)

  /** A dot in the R-hat or n_eff column. */
  datatype Point = Point(x: real, y: real, color: string)

  /** What one (variable, trace) pair contributes: its y-tick label, one tree
      per chain, the quantiles that widen the x-range, the diagnostic dots,
      and `y` as the loop leaves it (the height of the last chain drawn). */
  datatype RowMarks = RowMarks(ytick: string, trees: seq<TreeMark>, quants: seq<real>,
                               rhat: Option<Point>, neff: Option<Point>, lastY: real)

  /** A shaded band behind one variable's rows (`axhspan`). */
  datatype Band = Band(top: real, bottom: real, alpha: real)

  /** The normalised arguments the layout loop reads. */
  datatype Setup = Setup(traces: seq<Trace>, models: seq<string>, colors: seq<string>,
                         nchains: seq<nat>, levels: seq<real>, quartiles: bool, spacing: real,
                         plotRhat: seq<bool>, plotNeff: seq<bool>, stats: ForestStats)

  /** The layout loop runs once normalisation has succeeded: a model name,
      a positive chain count and flags for every trace, and as many quantile
      levels as `qlist` has. */
  predicate Consistent(s: Setup)
  {
    && |s.models| >= |s.traces| && |s.nchains| == |s.traces|
    && |s.plotRhat| == |s.traces| && |s.plotNeff| == |s.traces|
    && |s.levels| == LevelCount(s.quartiles)
    && forall h :: 0 <= h < |s.nchains| ==> s.nchains[h] >= 1
  }

  /** The length of `qlist`: five levels with quartiles, three without. */
  function LevelCount(quartiles: bool): nat
  {
    if quartiles then 5 else 3
  }

  /** The row counter `var` at the pair (variable vi, trace h). */
  function RowIndex(s: Setup, vi: nat, h: nat): nat
  {
    vi * |s.traces| + h
  }

  /** The quantiles drawn for chain j of variable v in trace h: one per
      level, the first and the last being the chain's HPD bounds and the
      others the chain's quantiles at their levels. */
  function ChainQuants(s: Setup, v: Name, h: nat, j: nat): (q: seq<real>)
    requires |s.levels| >= 1
    ensures |q| == |s.levels|
    ensures q[|q| - 1] == s.stats.hpd(h, v, j).1 && (|q| > 1 ==> q[0] == s.stats.hpd(h, v, j).0)
    ensures forall k :: 0 < k < |q| - 1 ==> q[k] == s.stats.quantile(h, v, j, s.levels[k])
  {
    WithHpd(QuantileRow(s.levels, l => s.stats.quantile(h, v, j, l)), s.stats.hpd(h, v, j))
  }

  /** The quantiles of every chain of variable v in trace h, chain by chain. */
  function AllChainQuants(s: Setup, v: Name, h: nat): (qs: seq<seq<real>>)
    requires |s.levels| >= 1 && h < |s.nchains|
    ensures |qs| == s.nchains[h] && forall j :: 0 <= j < |qs| ==> qs[j] == ChainQuants(s, v, h, j)
  {
    seq(s.nchains[h], j requires 0 <= j => ChainQuants(s, v, h, j))
  }

  /** The height of chain j of trace h on row `row`. */
  function ChainY(s: Setup, h: nat, row: nat, j: nat): real
    requires h < |s.nchains|
  {
    var off := Offsets(s.spacing, s.nchains[h]);
    -(row as real) + (if j < |off| then off[j] else 0.0)
  }

  /** The tree drawn for chain j of variable v in trace h, at row `row`: at
      the chain's height in the trace's colour, its outer bar the chain's HPD
      interval, its dot the quantile at the middle level, and with quartiles
      its inner bar between the quantiles at the second and fourth levels. */
  function ChainTree(s: Setup, v: Name, h: nat, row: nat, j: nat): (t: TreeMark)
    requires |s.levels| == LevelCount(s.quartiles) && h < |s.colors| && h < |s.nchains|
    ensures t.y == ChainY(s, h, row, j) && t.color == s.colors[h]
    ensures t.outer == s.stats.hpd(h, v, j)
    ensures t.median == s.stats.quantile(h, v, j, s.levels[|s.levels| / 2])
    ensures t.inner.Some? <==> s.quartiles
    ensures s.quartiles ==> t.inner.value == (s.stats.quantile(h, v, j, s.levels[1]), s.stats.quantile(h, v, j, s.levels[3]))
  {
    PlotTree(ChainY(s, h, row, j), ChainQuants(s, v, h, j), s.quartiles, s.colors[h]).value
  }

  /** One tree per chain. */
  function ChainTrees(s: Setup, v: Name, h: nat, row: nat): (ts: seq<TreeMark>)
    requires |s.levels| == LevelCount(s.quartiles) && h < |s.colors| && h < |s.nchains|
    ensures |ts| == s.nchains[h] && forall j :: 0 <= j < |ts| ==> ts[j] == ChainTree(s, v, h, row, j)
  {
    seq(s.nchains[h], j requires 0 <= j => ChainTree(s, v, h, row, j))
  }

  function MinReal(a: real, b: real): real
  {
    if a <= b then a else b
  }

  function MaxReal(a: real, b: real): real
  {
    if a <= b then b else a
  }

  /** With the levels normalisation produces, for any alpha, every tree
      shows the chain's HPD interval as its outer bar and its median as its
      dot; with quartiles the inner bar lies between the quantiles at levels
      within [0.25, 0.75], and for alpha at most 0.5 it runs from the 25% to
      the 75% quantile, as the docstring promises. */
  lemma TreeShowsHpdQuartilesAndMedian(s: Setup, alpha: real, v: Name, h: nat, row: nat, j: nat)
    requires s.levels == Levels(alpha, s.quartiles) && h < |s.colors| && h < |s.nchains|
    ensures var t := ChainTree(s, v, h, row, j);
            && t.outer == s.stats.hpd(h, v, j)
            && t.median == s.stats.quantile(h, v, j, 0.5)
            && (s.quartiles ==> 0.25 <= s.levels[1] <= 0.5 <= s.levels[3] <= 0.75)
            && (s.quartiles && alpha <= 0.5 ==>
                  t.inner == Some((s.stats.quantile(h, v, j, 0.25), s.stats.quantile(h, v, j, 0.75))))
  {
    LevelsRearrangeQlist(alpha, s.quartiles);
  }

  /** How many columns of trace h carry the label v: the chains of v. */
  function ColumnCount(s: Setup, v: Name, h: nat): nat
    requires h < |s.traces|
  {
    Count(s.traces[h].columns, v)
  }

  /** With `nch` chains, chain j's quantiles are read as column j of the
      variable's `cols` columns. A variable with a single column gives a
      Series, which refuses a second indexer; one with fewer columns than
      chains runs out of columns at chain `cols`. */
  function ChainLookup(nch: nat, cols: nat, j: nat): Option<Error>
  {
    if nch <= 1 then None
    else if cols == 1 then Some(TooManyIndexers)
    else if j >= cols then Some(ColumnOutOfBounds)
    else None
  }

  const TooManyIndexers: Error := IndexingError("Too many indexers")
  const ColumnOutOfBounds: Error := IndexError("single positional indexer is out-of-bounds")
  const NoColor: Error := IndexError("list index out of range")

  /** The error the chain loop of a trace with `nch` chains and `cols`
      columns of the variable stops at: the first chain's lookup into a
      single column, else the first chain's missing colour, else the lookup
      of the first chain without a column. */
  function ChainsError(nch: nat, cols: nat, colored: bool): Error
  {
    if nch > 1 && cols == 1 then TooManyIndexers
    else if !colored then NoColor
    else ColumnOutOfBounds
  }

  /** The marks of one (variable, trace) pair. A trace without the variable
      still gets a label and a row; a trace with it gets a tree per chain,
      which needs its colour and a column of the variable per chain. */
  function PairMarks(s: Setup, varnames: seq<Name>, vi: nat, h: nat): (r: Result<RowMarks>)
    requires Consistent(s) && vi < |varnames| && h < |s.traces|
    ensures r.Err? <==> varnames[vi] in s.traces[h].columns
                        && (h >= |s.colors| || ColumnCount(s, varnames[vi], h) < s.nchains[h])
    ensures r.Err? ==> r.error == ChainsError(s.nchains[h], ColumnCount(s, varnames[vi], h), h < |s.colors|)
    ensures r.Ok? ==> r.value.ytick == s.models[h] + " " + varnames[vi]
  {
    var v := varnames[vi];
    var row := RowIndex(s, vi, h);
    var tick := s.models[h] + " " + v;
    if v !in s.traces[h].columns then
      Ok(RowMarks(tick, [], [], None, None, -(row as real)))
    else if h >= |s.colors| || ColumnCount(s, v, h) < s.nchains[h] then
      Err(ChainsError(s.nchains[h], ColumnCount(s, v, h), h < |s.colors|))
    else
      var nch := s.nchains[h];
      Ok(RowMarks(tick,
                  ChainTrees(s, v, h, row),
                  Flat(AllChainQuants(s, v, h)),
                  if s.plotRhat[h] then Some(Point(MinReal(s.stats.rhat(h, v), 2.0), -(row as real), s.colors[h])) else None,
                  if s.plotNeff[h] then Some(Point(s.stats.neff(h, v), -(row as real), s.colors[h])) else None,
                  ChainY(s, h, row, nch - 1)))
  }

  /** The rows, bands and final row count of the layout loop. */
  datatype Layout = Layout(rows: seq<seq<RowMarks>>, bands: seq<Band>, count: nat)

  /** The band alpha of variable vi: `(0.05, 0)[vi % 2]`. */
  function BandAlpha(vi: nat): real
  {
    if vi % 2 == 0 then 0.05 else 0.0
  }

  /** The quantiles of chain j, looked up at the levels, with their ends
      overwritten in place by the chain's HPD bounds. */
  method ChainQuantiles(s: Setup, v: Name, h: nat, j: nat) returns (q: seq<real>)
    requires |s.levels| >= 1
    ensures q == ChainQuants(s, v, h, j)
  {
    var quants := new real[|s.levels|](k requires 0 <= k < |s.levels| => s.stats.quantile(h, v, j, s.levels[k]));
    assert quants[..] == QuantileRow(s.levels, l => s.stats.quantile(h, v, j, l));
    SubstituteHpd(quants, s.stats.hpd(h, v, j));
    q := quants[..];
  }

  /** One pass of the chain loop: the lookup of chain j's column, then its
      quantiles, its height, and its tree, which needs the trace's colour. */
  method DrawChain(s: Setup, v: Name, h: nat, row: nat, j: nat, off: seq<real>)
    returns (r: Result<(seq<real>, real, TreeMark)>)
    requires h < |s.traces| && h < |s.nchains| && j < s.nchains[h] && |s.levels| == LevelCount(s.quartiles)
    requires off == Offsets(s.spacing, s.nchains[h])
    ensures var lookup := ChainLookup(s.nchains[h], ColumnCount(s, v, h), j);
            && (r.Err? <==> lookup.Some? || h >= |s.colors|)
            && (r.Err? ==> r.error == if lookup.Some? then lookup.value else NoColor)
    ensures r.Ok? ==> r.value == (ChainQuants(s, v, h, j), ChainY(s, h, row, j), ChainTree(s, v, h, row, j))
  {
    var lookup := ChainLookup(s.nchains[h], ColumnCount(s, v, h), j);
    if lookup.Some? {
      return Err(lookup.value);
    }
    var q := ChainQuantiles(s, v, h, j);
    var y := -(row as real) + off[j];
    if h >= |s.colors| {
      return Err(NoColor);
    }
    var tree := PlotTree(y, q, s.quartiles, s.colors[h]);
    return Ok((q, y, tree.value));
  }

  /** The chain loop has drawn chains 0 .. j-1 without error: the trace has
      a colour and, with several chains, the variable has several columns,
      at least j of them. */
  predicate ChainsReached(nch: nat, cols: nat, colored: bool, j: nat)
  {
    colored && (nch > 1 ==> cols != 1 && j <= cols)
  }

  /** One pass of the chain loop: the error of chain j, if any, is the
      error of the whole loop, and otherwise one more chain is drawn. */
  lemma ChainStep(nch: nat, cols: nat, colored: bool, j: nat)
    requires j < nch && cols >= 1 && (j == 0 || ChainsReached(nch, cols, colored, j))
    ensures ChainLookup(nch, cols, j).Some? || !colored ==>
              (!colored || cols < nch)
              && ChainsError(nch, cols, colored) == if ChainLookup(nch, cols, j).Some? then ChainLookup(nch, cols, j).value else NoColor
    ensures !(ChainLookup(nch, cols, j).Some? || !colored) ==> ChainsReached(nch, cols, colored, j + 1)
  {
  }

  /** Once every chain is drawn, the loop has met no error. */
  lemma ChainsReachedAll(nch: nat, cols: nat, colored: bool)
    requires nch >= 1 && cols >= 1
    ensures ChainsReached(nch, cols, colored, nch) ==> colored && cols >= nch
  {
  }

  /** Drawing chain j extends the trees and the collected quantiles of the
      chains before it by chain j's. */
  lemma ChainsSnoc(s: Setup, v: Name, h: nat, row: nat, j: nat)
    requires |s.levels| == LevelCount(s.quartiles) && h < |s.colors| && h < |s.nchains| && j < s.nchains[h]
    ensures Flat(AllChainQuants(s, v, h)[..j + 1]) == Flat(AllChainQuants(s, v, h)[..j]) + ChainQuants(s, v, h, j)
    ensures ChainTrees(s, v, h, row)[..j + 1] == ChainTrees(s, v, h, row)[..j] + [ChainTree(s, v, h, row, j)]
  {
    FlatSnoc(AllChainQuants(s, v, h), j);
  }

  /** The chain loop of a trace that has the variable: for each chain the
      column is looked up, its quantiles taken, their ends replaced by the HPD
      bounds in place, collected, and drawn as a tree at the chain's height.
      Returns the trees, the collected quantiles and the last height; fails
      iff the trace has no colour or the variable has fewer columns than the
      trace has chains. */
  method DrawChains(s: Setup, v: Name, h: nat, row: nat) returns (r: Result<(seq<TreeMark>, seq<real>, real)>)
    requires h < |s.traces| && h < |s.nchains| && s.nchains[h] >= 1 && |s.levels| == LevelCount(s.quartiles)
    requires v in s.traces[h].columns
    ensures r.Err? <==> h >= |s.colors| || ColumnCount(s, v, h) < s.nchains[h]
    ensures r.Err? ==> r.error == ChainsError(s.nchains[h], ColumnCount(s, v, h), h < |s.colors|)
    ensures r.Ok? ==> r.value.0 == ChainTrees(s, v, h, row)
    ensures r.Ok? ==> r.value.1 == Flat(AllChainQuants(s, v, h))
    ensures r.Ok? ==> r.value.2 == ChainY(s, h, row, s.nchains[h] - 1)
  {
    var nch := s.nchains[h];
    var cols := ColumnCount(s, v, h);
    var colored := h < |s.colors|;
    CountPositive(s.traces[h].columns, v);
    ChainsReachedAll(nch, cols, colored);
    var off := Offsets(s.spacing, nch);
    var trees: seq<TreeMark> := [];
    var quants: seq<real> := [];
    var y := 0.0;
    var j := 0;
    while j < nch
      invariant 0 <= j <= nch && |trees| == j
      invariant quants == Flat(AllChainQuants(s, v, h)[..j])
      invariant j > 0 ==> ChainsReached(nch, cols, colored, j)
      invariant j > 0 ==> trees == ChainTrees(s, v, h, row)[..j]
      invariant j > 0 ==> y == ChainY(s, h, row, j - 1)
    {
      ChainStep(nch, cols, colored, j);
      var chain := DrawChain(s, v, h, row, j, off);
      if chain.Err? {
        return Err(chain.error);
      }
      var (q, yj, tree) := chain.value;
      ChainsSnoc(s, v, h, row, j);
      quants := quants + q;
      y := yj;
      trees := trees + [tree];
      j := j + 1;
    }
    assert AllChainQuants(s, v, h)[..j] == AllChainQuants(s, v, h);
    assert ChainTrees(s, v, h, row)[..j] == ChainTrees(s, v, h, row);
    return Ok((trees, quants, y));
  }

  /** One pass of the trace loop: the marks of variable vi in trace h, with
      `var` equal to the pair's row. */
  method DrawPair(s: Setup, varnames: seq<Name>, vi: nat, h: nat) returns (r: Result<RowMarks>)
    requires Consistent(s) && vi < |varnames| && h < |s.traces|
    ensures r == PairMarks(s, varnames, vi, h)
  {
    var v := varnames[vi];
    var row := RowIndex(s, vi, h);
    var tick := s.models[h] + " " + v;
    if v !in s.traces[h].columns {
      return Ok(RowMarks(tick, [], [], None, None, -(row as real)));
    }
    var chains := DrawChains(s, v, h, row);
    if chains.Err? {
      return Err(chains.error);
    }
    var (trees, quants, y) := chains.value;
    var rhatPoint := if s.plotRhat[h] then Some(Point(MinReal(s.stats.rhat(h, v), 2.0), -(row as real), s.colors[h])) else None;
    var neffPoint := if s.plotNeff[h] then Some(Point(s.stats.neff(h, v), -(row as real), s.colors[h])) else None;
    return Ok(RowMarks(tick, trees, quants, rhatPoint, neffPoint, y));
  }

  /** The trace loop of variable vi over the first n traces: their marks,
      or the first error raised. */
  function PairsUpTo(s: Setup, varnames: seq<Name>, vi: nat, n: nat): (r: Result<seq<RowMarks>>)
    requires Consistent(s) && vi < |varnames| && n <= |s.traces|
    ensures r.Ok? ==> |r.value| == n
  {
    if n == 0 then Ok([])
    else
      var prev :- PairsUpTo(s, varnames, vi, n - 1);
      var marks :- PairMarks(s, varnames, vi, n - 1);
      Ok(prev + [marks])
  }

  /** The trace loop succeeds exactly when every pair does, and then yields
      their marks in trace order. */
  lemma {:induction false} PairsUpToSpec(s: Setup, varnames: seq<Name>, vi: nat, n: nat)
    requires Consistent(s) && vi < |varnames| && n <= |s.traces|
    ensures PairsUpTo(s, varnames, vi, n).Ok? <==> forall h :: 0 <= h < n ==> PairMarks(s, varnames, vi, h).Ok?
    ensures PairsUpTo(s, varnames, vi, n).Ok? ==>
              forall h :: 0 <= h < n ==> PairsUpTo(s, varnames, vi, n).value[h] == PairMarks(s, varnames, vi, h).value
  {
    if n > 0 {
      PairsUpToSpec(s, varnames, vi, n - 1);
      var prev, last := PairsUpTo(s, varnames, vi, n - 1), PairMarks(s, varnames, vi, n - 1);
      if prev.Ok? && last.Ok? {
        assert PairsUpTo(s, varnames, vi, n) == Ok(prev.value + [last.value]);
      }
    }
  }

  /** Otherwise the trace loop fails with the error of the first pair that
      raises. */
  lemma {:induction false} PairsUpToFirstError(s: Setup, varnames: seq<Name>, vi: nat, n: nat)
    requires Consistent(s) && vi < |varnames| && n <= |s.traces|
    ensures PairsUpTo(s, varnames, vi, n).Err? ==>
              exists h :: 0 <= h < n && PairMarks(s, varnames, vi, h).Err?
                          && PairsUpTo(s, varnames, vi, n).error == PairMarks(s, varnames, vi, h).error
                          && forall g :: 0 <= g < h ==> PairMarks(s, varnames, vi, g).Ok?
  {
    if n > 0 {
      PairsUpToSpec(s, varnames, vi, n - 1);
      PairsUpToFirstError(s, varnames, vi, n - 1);
      var prev, last := PairsUpTo(s, varnames, vi, n - 1), PairMarks(s, varnames, vi, n - 1);
      if prev.Err? {
        assert PairsUpTo(s, varnames, vi, n) == Err(prev.error);
        var h :| 0 <= h < n - 1 && PairMarks(s, varnames, vi, h).Err? && prev.error == PairMarks(s, varnames, vi, h).error
                 && forall g :: 0 <= g < h ==> PairMarks(s, varnames, vi, g).Ok?;
        assert h < n;
      } else if last.Err? {
        assert PairsUpTo(s, varnames, vi, n) == Err(last.error);
        assert forall g :: 0 <= g < n - 1 ==> PairMarks(s, varnames, vi, g).Ok?;
      }
    }
  }

  /** Once a trace has raised, the later traces are never reached. */
  lemma {:induction false} PairsUpToStops(s: Setup, varnames: seq<Name>, vi: nat, n: nat, m: nat)
    requires Consistent(s) && vi < |varnames| && n <= m <= |s.traces|
    requires PairsUpTo(s, varnames, vi, n).Err?
    ensures PairsUpTo(s, varnames, vi, m) == PairsUpTo(s, varnames, vi, n)
  {
    if n < m {
      PairsUpToStops(s, varnames, vi, n, m - 1);
    }
  }

  /** The variable loop over the first n variables: each variable's row of
      marks, or the first error raised. */
  function RowsUpTo(s: Setup, varnames: seq<Name>, n: nat): (r: Result<seq<seq<RowMarks>>>)
    requires Consistent(s) && n <= |varnames|
    ensures r.Ok? ==> |r.value| == n && forall a :: 0 <= a < n ==> |r.value[a]| == |s.traces|
  {
    if n == 0 then Ok([])
    else
      var prev :- RowsUpTo(s, varnames, n - 1);
      var row :- PairsUpTo(s, varnames, n - 1, |s.traces|);
      Ok(prev + [row])
  }

  /** Once a variable has raised, the later variables are never reached. */
  lemma {:induction false} RowsUpToStops(s: Setup, varnames: seq<Name>, n: nat, m: nat)
    requires Consistent(s) && n <= m <= |varnames|
    requires RowsUpTo(s, varnames, n).Err?
    ensures RowsUpTo(s, varnames, m) == RowsUpTo(s, varnames, n)
  {
    if n < m {
      RowsUpToStops(s, varnames, n, m - 1);
    }
  }

  /** The variable loop succeeds exactly when every (variable, trace) pair
      does. */
  lemma {:induction false} RowsUpToOkIff(s: Setup, varnames: seq<Name>, n: nat)
    requires Consistent(s) && n <= |varnames|
    ensures RowsUpTo(s, varnames, n).Ok? <==>
              forall vi, h :: 0 <= vi < n && 0 <= h < |s.traces| ==> PairMarks(s, varnames, vi, h).Ok?
  {
    if n > 0 {
      RowsUpToOkIff(s, varnames, n - 1);
      PairsUpToSpec(s, varnames, n - 1, |s.traces|);
    }
  }

  /** When it succeeds, row vi holds exactly the marks of variable vi,
      trace by trace. */
  lemma {:induction false} RowsUpToContents(s: Setup, varnames: seq<Name>, n: nat, vi: nat, h: nat)
    requires Consistent(s) && n <= |varnames| && RowsUpTo(s, varnames, n).Ok?
    requires vi < n && h < |s.traces|
    ensures PairMarks(s, varnames, vi, h).Ok?
    ensures RowsUpTo(s, varnames, n).value[vi][h] == PairMarks(s, varnames, vi, h).value
  {
    var prev := RowsUpTo(s, varnames, n - 1);
    if vi < n - 1 {
      RowsUpToContents(s, varnames, n - 1, vi, h);
      assert RowsUpTo(s, varnames, n).value[vi] == prev.value[vi];
    } else {
      PairsUpToSpec(s, varnames, n - 1, |s.traces|);
    }
  }

  /** The trace loop for variable vi: one row per trace. */
  method DrawVariable(s: Setup, varnames: seq<Name>, vi: nat) returns (r: Result<seq<RowMarks>>)
    requires Consistent(s) && vi < |varnames|
    ensures r == PairsUpTo(s, varnames, vi, |s.traces|)
  {
    var row: seq<RowMarks> := [];
    var h := 0;
    while h < |s.traces|
      invariant 0 <= h <= |s.traces|
      invariant PairsUpTo(s, varnames, vi, h) == Ok(row)
    {
      var marks := DrawPair(s, varnames, vi, h);
      if marks.Err? {
        PairsUpToStops(s, varnames, vi, h + 1, |s.traces|);
        return Err(marks.error);
      }
      row := row + [marks.value];
      h := h + 1;
    }
    return Ok(row);
  }

  /** The shaded bands, one per variable: each starts where the previous one
      ended (the first at 0.5) and ends `chain_spacing + 0.5` below the
      variable's last drawn height; the alphas alternate 0.05, 0. */
  function Bands(rows: seq<seq<RowMarks>>, spacing: real): (bs: seq<Band>)
    requires forall a :: 0 <= a < |rows| ==> |rows[a]| > 0
    ensures |bs| == |rows|
  {
    if rows == [] then []
    else
      var prev := Bands(rows[..|rows| - 1], spacing);
      var last := rows[|rows| - 1];
      prev + [Band(if prev == [] then 0.5 else prev[|prev| - 1].bottom,
                   last[|last| - 1].lastY - spacing - 0.5, BandAlpha(|rows| - 1))]
  }

  /** The bands tile the plot from 0.5 downwards without gaps or overlaps,
      each ending below its variable's last chain, with alternating alphas. */
  lemma {:induction false} BandsTile(rows: seq<seq<RowMarks>>, spacing: real)
    requires forall a :: 0 <= a < |rows| ==> |rows[a]| > 0
    ensures var bs := Bands(rows, spacing);
            && (forall a :: 0 <= a < |rows| ==>
                  bs[a].bottom == rows[a][|rows[a]| - 1].lastY - spacing - 0.5 && bs[a].alpha == BandAlpha(a))
            && (|rows| > 0 ==> bs[0].top == 0.5)
            && (forall a :: 0 < a < |rows| ==> bs[a].top == bs[a - 1].bottom)
  {
    if rows != [] {
      var init := rows[..|rows| - 1];
      BandsTile(init, spacing);
      var bs := Bands(rows, spacing);
      var prev := Bands(init, spacing);
      assert bs[..|prev|] == prev;
      forall a | 0 <= a < |init| ensures rows[a] == init[a] { }
    }
  }

  /** Appending a variable's rows appends its band. */
  lemma BandsSnoc(rows: seq<seq<RowMarks>>, row: seq<RowMarks>, spacing: real)
    requires forall a :: 0 <= a < |rows| ==> |rows[a]| > 0
    requires |row| > 0
    ensures var prev := Bands(rows, spacing);
            Bands(rows + [row], spacing)
            == prev + [Band(if prev == [] then 0.5 else prev[|prev| - 1].bottom,
                            row[|row| - 1].lastY - spacing - 0.5, BandAlpha(|rows|))]
  {
    assert (rows + [row])[..|rows|] == rows;
  }

  /** The band of the variable whose rows were just drawn: from the previous
      band's bottom down to just below the variable's last chain. */
  method ShadeVariable(rows: seq<seq<RowMarks>>, bands: seq<Band>, varOld: real, row: seq<RowMarks>, spacing: real)
    returns (bands': seq<Band>, varNew: real)
    requires forall a :: 0 <= a < |rows| ==> |rows[a]| > 0
    requires |row| > 0
    requires bands == Bands(rows, spacing) && varOld == LastBottom(bands)
    ensures bands' == Bands(rows + [row], spacing)
    ensures varNew == LastBottom(bands')
  {
    BandsSnoc(rows, row, spacing);
    varNew := row[|row| - 1].lastY - spacing - 0.5;
    bands' := bands + [Band(varOld, varNew, BandAlpha(|rows|))];
  }

  /** The row counter after `nvars` variables of `ntr` traces each. */
  function RowCount(nvars: nat, ntr: nat): (n: nat)
  {
    if nvars == 0 then 0 else RowCount(nvars - 1, ntr) + ntr
  }

  lemma {:induction false} RowCountIsProduct(nvars: nat, ntr: nat)
    ensures RowCount(nvars, ntr) == nvars * ntr
  {
    if nvars > 0 {
      RowCountIsProduct(nvars - 1, ntr);
    }
  }

  /** The layout of all variables: their rows, one band per variable when
      there are several traces, and one row counted per (variable, trace)
      pair. */
  function LayoutOf(s: Setup, varnames: seq<Name>): (r: Result<Layout>)
    requires Consistent(s)
    ensures r.Ok? ==> |r.value.rows| == |varnames|
  {
    var rows :- RowsUpTo(s, varnames, |varnames|);
    Ok(Layout(rows, ShownBands(s, rows), |varnames| * |s.traces|))
  }

  /** Once every variable's rows are drawn, they make up the layout. */
  lemma LayoutOfRows(s: Setup, varnames: seq<Name>, rows: seq<seq<RowMarks>>)
    requires Consistent(s) && RowsUpTo(s, varnames, |varnames|) == Ok(rows)
    ensures LayoutOf(s, varnames) == Ok(Layout(rows, ShownBands(s, rows), |varnames| * |s.traces|))
  {
  }

  /** The bands shown behind the rows: one per variable with several traces,
      none with a single trace. */
  function ShownBands(s: Setup, rows: seq<seq<RowMarks>>): seq<Band>
    requires forall a :: 0 <= a < |rows| ==> |rows[a]| == |s.traces|
  {
    if |s.traces| > 1 then Bands(rows, s.spacing) else []
  }

  /** The bottom of the last band drawn, `var_old`. */
  function LastBottom(bands: seq<Band>): real
  {
    if bands == [] then 0.5 else bands[|bands| - 1].bottom
  }

  /** One pass of the variable loop: the variable's row and, with several
      traces, its band. */
  method DrawRow(s: Setup, varnames: seq<Name>, vi: nat, rows: seq<seq<RowMarks>>, bands: seq<Band>, varOld: real)
    returns (r: Result<(seq<seq<RowMarks>>, seq<Band>, real)>)
    requires Consistent(s) && vi < |varnames| && RowsUpTo(s, varnames, vi) == Ok(rows)
    requires bands == ShownBands(s, rows) && varOld == LastBottom(bands)
    ensures r.Err? ==> RowsUpTo(s, varnames, vi + 1) == Err(r.error) && LayoutOf(s, varnames) == Err(r.error)
    ensures r.Ok? ==> && RowsUpTo(s, varnames, vi + 1) == Ok(r.value.0)
                      && r.value.1 == ShownBands(s, r.value.0)
                      && r.value.2 == LastBottom(r.value.1)
  {
    var row := DrawVariable(s, varnames, vi);
    if row.Err? {
      RowsUpToStops(s, varnames, vi + 1, |varnames|);
      return Err(row.error);
    }
    var bands', varNew := bands, varOld;
    if |s.traces| > 1 {
      bands', varNew := ShadeVariable(rows, bands, varOld, row.value, s.spacing);
    }
    return Ok((rows + [row.value], bands', varNew));
  }

  /** The nested loop over variables, traces and chains. Every (variable,
      trace) pair advances the row counter by exactly one, present or not;
      with several traces each variable gets a band from where the previous
      one ended down to just below its last chain. */
  method LayoutRows(s: Setup, varnames: seq<Name>) returns (r: Result<Layout>)
    requires Consistent(s)
    ensures r == LayoutOf(s, varnames)
  {
    var ntr := |s.traces|;
    var rows: seq<seq<RowMarks>> := [];
    var bands: seq<Band> := [];
    var count := 0;
    var varOld := 0.5;
    var vi := 0;
    while vi < |varnames|
      invariant 0 <= vi <= |varnames|
      invariant RowsUpTo(s, varnames, vi) == Ok(rows)
      invariant count == RowCount(vi, ntr)
      invariant bands == ShownBands(s, rows) && varOld == LastBottom(bands)
    {
      var next := DrawRow(s, varnames, vi, rows, bands, varOld);
      if next.Err? {
        return Err(next.error);
      }
      rows, bands, varOld := next.value.0, next.value.1, next.value.2;
      count := count + ntr;
      vi := vi + 1;
    }
    RowCountIsProduct(|varnames|, |s.traces|);
    LayoutOfRows(s, varnames, rows);
    return Ok(Layout(rows, bands, count));
  }

  // ---------------------------------------------------------------------------
  // The whole plot

  /** The argument normalisation before the layout loop: model names,
      colours, quantile levels, chain counts and diagnostic flags. */
  function Normalise(traces: seq<Trace>, models: Option<seq<string>>, colors: Colors, alpha: real,
                     quartiles: bool, rhat: bool, neff: bool, spacing: real, stats: ForestStats): (r: Result<Setup>)
    ensures r.Ok? ==> Consistent(r.value) && r.value.traces == traces
    ensures r.Err? <==> NormaliseModels(models, |traces|).Err? || NChains(traces).Err?
    ensures r.Err? ==> r.error == if NormaliseModels(models, |traces|).Err? then NormaliseModels(models, |traces|).error
                                  else NChains(traces).error
    ensures r.Ok? ==> r.value.models == NormaliseModels(models, |traces|).value
    ensures r.Ok? ==> r.value.nchains == NChains(traces).value
    ensures r.Ok? ==> r.value.levels == Levels(alpha, quartiles)
    ensures r.Ok? ==> r.value.plotRhat == DiagnosticFlags(rhat, r.value.nchains)
                      && r.value.plotNeff == DiagnosticFlags(neff, r.value.nchains)
  {
    var names :- NormaliseModels(models, |traces|);
    var nchains :- NChains(traces);
    Ok(Setup(traces, names, ExpandColors(colors, |names|), nchains, Levels(alpha, quartiles),
             quartiles, spacing, DiagnosticFlags(rhat, nchains), DiagnosticFlags(neff, nchains), stats))
  }

  /** The y-tick labels in the order the loop appends them: one per
      (variable, trace) pair. */
  function Labels(rows: seq<seq<RowMarks>>): seq<string>
  {
    Flat(seq(|rows|, vi requires 0 <= vi < |rows| => seq(|rows[vi]|, h requires 0 <= h < |rows[vi]| => rows[vi][h].ytick)))
  }

  /** `all_quants`: every quantile drawn, in drawing order. */
  function AllQuants(rows: seq<seq<RowMarks>>): seq<real>
  {
    Flat(seq(|rows|, vi requires 0 <= vi < |rows| => Flat(seq(|rows[vi]|, h requires 0 <= h < |rows[vi]| => rows[vi][h].quants))))
  }

  /** Every pair gets exactly one label, at its own row: the label of
      variable vi in trace h is the model name, a space and the variable name,
      at position vi times the number of traces plus h, whose tick is minus
      that position, the height of the pair's first chain. */
  lemma LabelsOnePerRow(s: Setup, varnames: seq<Name>, vi: nat, h: nat)
    requires Consistent(s) && LayoutOf(s, varnames).Ok?
    requires vi < |varnames| && h < |s.traces|
    ensures var layout := LayoutOf(s, varnames).value;
            && |Labels(layout.rows)| == layout.count
            && RowIndex(s, vi, h) < layout.count
            && Labels(layout.rows)[RowIndex(s, vi, h)] == s.models[h] + " " + varnames[vi]
            && Ticks(layout.count)[RowIndex(s, vi, h)] == -(RowIndex(s, vi, h) as int)
  {
    var rows: seq<seq<RowMarks>> := LayoutOf(s, varnames).value.rows;
    RowsUpToContents(s, varnames, |varnames|, vi, h);
    var ls := seq(|rows|, a requires 0 <= a < |rows| => seq(|rows[a]|, b requires 0 <= b < |rows[a]| => rows[a][b].ytick));
    FlatUniformLength(ls, |s.traces|);
    FlatUniformIndex(ls, |s.traces|, vi, h);
  }

  /** The first chain of a pair that has the variable sits exactly on the
      pair's tick `-row`. */
  lemma FirstChainOnTick(s: Setup, varnames: seq<Name>, vi: nat, h: nat)
    requires Consistent(s) && vi < |varnames| && h < |s.traces|
    requires PairMarks(s, varnames, vi, h).Ok? && varnames[vi] in s.traces[h].columns
    ensures |PairMarks(s, varnames, vi, h).value.trees| >= 1
    ensures PairMarks(s, varnames, vi, h).value.trees[0].y == -(RowIndex(s, vi, h) as real)
  {
  }

  /** The length of the longest label. */
  function LongestLabel(labels: seq<string>): (m: nat)
    requires |labels| > 0
    ensures (exists l :: 0 <= l < |labels| && |labels[l]| == m) && forall l :: 0 <= l < |labels| ==> |labels[l]| <= m
  {
    if |labels| == 1 then |labels[0]|
    else
      var rest := LongestLabel(labels[1..]);
      assert forall l :: 1 <= l < |labels| ==> labels[l] == labels[1..][l - 1];
      if |labels[0]| >= rest then |labels[0]| else rest
  }

  /** The default x-range: the drawn quantiles' range widened by 5% of its
      width on each side. */
  function PaddedRange(quants: seq<real>): (r: (real, real))
    requires |quants| > 0
  {
    var lo, hi := Min(quants), Max(quants);
    (lo - 0.05 * (hi - lo), hi + 0.05 * (hi - lo))
  }

  /** Every drawn quantile lies inside the default x-range. */
  lemma PaddedRangeCovers(quants: seq<real>)
    requires |quants| > 0
    ensures forall q :: q in quants ==> PaddedRange(quants).0 <= q <= PaddedRange(quants).1
  {
    var lo, hi := Min(quants), Max(quants);
    assert lo <= hi;
  }

  /** The y-range after `count` rows: half a row above the first tick, 0, and
      half a row below the last tick, -(count - 1). */
  function YRange(count: nat): (r: (real, real))
  {
    (-(count as real) + 0.5, 0.5)
  }

  /** The y-ticks 0, -1, ..., -(n-1): one per label, top down. */
  function Ticks(n: nat): (t: seq<int>)
    ensures |t| == n && forall l :: 0 <= l < n ==> t[l] == -l
  {
    seq(n, l requires 0 <= l => -l)
  }

  /** The `main` argument: omitted, a string, or `False`. */
  datatype Main = DefaultMain | MainText(text: string) | MainFalse

  /** The title: the credible-interval percentage (1 - alpha) * 100 by
      default, the given text if it is non-empty, and `''` otherwise. */
  datatype Title = CredibleIntervals(percent: real) | TitleText(text: string)

  function TitleOf(main: Main, alpha: real): (t: Title)
    ensures main.DefaultMain? <==> t.CredibleIntervals?
    ensures t.CredibleIntervals? ==> t.percent == (1.0 - alpha) * 100.0
    ensures main.MainText? ==> t == TitleText(main.text)
    ensures main.MainFalse? ==> t == TitleText("")
  {
    match main
    case DefaultMain => CredibleIntervals((1.0 - alpha) * 100.0)
    case MainText(text) => if text != "" then TitleText(text) else TitleText("")
    case MainFalse => TitleText("")
  }

  /** Everything forestplot sets on the figure. */
  datatype ForestFigure = ForestFigure(
    figsize: (real, real),
    widthRatios: seq<int>,
    layout: Layout,
    labels: seq<string>,
    leftMargin: real,
    ylim: (real, real),
    xlim: (real, real),
    yticks: seq<int>,
    title: Title,
    xlabel: Option<string>,
    vline: real)

  /** numpy's message for a reduction over an empty array. */
  function EmptyReduction(op: string): Error
  {
    ValueError("zero-size array to reduction operation " + op + " which has no identity")
  }

  /** What forestplot does after the layout loop: choose the labels, size
      the left margin by the longest one, set the y-range and ticks, widen the
      x-range around every drawn quantile unless `xlim` is given, and title
      the plot. `np.max` of no labels and `np.min` of no quantiles raise. */
  function Finish(layout: Layout, figsize: (real, real), ratios: seq<int>, ylabels: Option<seq<string>>,
                  xlim: Option<(real, real)>, main: Main, alpha: real, xtitle: Option<string>, vline: real)
    : (r: Result<ForestFigure>)
    ensures var labels := if ylabels.Some? then ylabels.value else Labels(layout.rows);
            r.Err? <==> labels == [] || AllQuants(layout.rows) == []
    ensures r.Err? ==> r.error == if (if ylabels.Some? then ylabels.value else Labels(layout.rows)) == []
                                  then EmptyReduction("maximum") else EmptyReduction("minimum")
    ensures r.Ok? ==> r.value.layout == layout && r.value.figsize == figsize && r.value.widthRatios == ratios
    ensures r.Ok? ==> r.value.labels == if ylabels.Some? then ylabels.value else Labels(layout.rows)
    ensures r.Ok? ==> r.value.leftMargin == LongestLabel(r.value.labels) as real * 0.015
    ensures r.Ok? ==> r.value.ylim == YRange(layout.count)
    ensures r.Ok? ==> r.value.yticks == Ticks(|r.value.labels|)
    ensures r.Ok? && xlim.Some? ==> r.value.xlim == xlim.value
    ensures r.Ok? && xlim.None? ==> forall q :: q in AllQuants(layout.rows) ==> r.value.xlim.0 <= q <= r.value.xlim.1
    ensures r.Ok? && xlim.None? ==> r.value.xlim == PaddedRange(AllQuants(layout.rows))
    ensures r.Ok? ==> r.value.title == TitleOf(main, alpha) && r.value.xlabel == xtitle && r.value.vline == vline
  {
    var labels := if ylabels.Some? then ylabels.value else Labels(layout.rows);
    if labels == [] then Err(EmptyReduction("maximum"))
    else
      var quants := AllQuants(layout.rows);
      if quants == [] then Err(EmptyReduction("minimum"))
      else
        PaddedRangeCovers(quants);
        Ok(ForestFigure(figsize, ratios, layout, labels, LongestLabel(labels) as real * 0.015,
                        YRange(layout.count), if xlim.Some? then xlim.value else PaddedRange(quants),
                        Ticks(|labels|), TitleOf(main, alpha), xtitle, vline))
  }

  /** The whole of forestplot, with the grid built by the function itself
      (`gs=None`): normalisation, the variable list, the layout loop, and the
      finishing touches, each raising in that order. */
  method Forestplot(traces: seq<Trace>, models: Option<seq<string>>, varnames: Option<seq<Name>>,
                    alpha: real, quartiles: bool, rhat: bool, neff: bool, main: Main,
                    xtitle: Option<string>, xlim: Option<(real, real)>, ylabels: Option<seq<string>>,
                    colors: Colors, spacing: real, vline: real, figsize: Option<(real, real)>,
                    expand: (Trace, seq<Name>) -> seq<Name>, stats: ForestStats)
    returns (r: Result<ForestFigure>)
    ensures var setup := Normalise(traces, models, colors, alpha, quartiles, rhat, neff, spacing, stats);
            setup.Err? ==> r == Err(setup.error)
    ensures var setup := Normalise(traces, models, colors, alpha, quartiles, rhat, neff, spacing, stats);
            var vars := Varnames(traces, varnames, expand);
            setup.Ok? && LayoutOf(setup.value, vars).Err? ==> r == Err(LayoutOf(setup.value, vars).error)
    ensures var setup := Normalise(traces, models, colors, alpha, quartiles, rhat, neff, spacing, stats);
            var vars := Varnames(traces, varnames, expand);
            setup.Ok? && LayoutOf(setup.value, vars).Ok? ==>
              r == Finish(LayoutOf(setup.value, vars).value, DefaultFigsize(figsize, |vars|),
                          WidthRatios(setup.value.plotRhat, setup.value.plotNeff),
                          ylabels, xlim, main, alpha, xtitle, vline)
  {
    var setup :- Normalise(traces, models, colors, alpha, quartiles, rhat, neff, spacing, stats);
    var vars := SelectVarnames(traces, varnames, expand);
    var size := DefaultFigsize(figsize, |vars|);
    var ratios := WidthRatios(setup.plotRhat, setup.plotNeff);
    var layout :- LayoutRows(setup, vars);
    r := Finish(layout, size, ratios, ylabels, xlim, main, alpha, xtitle, vline);
  }
}
