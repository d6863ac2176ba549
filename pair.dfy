/** pairplot.py: the checks on `kind` and on the number of variables, the
    default figure size, and the panel matrix. With a grid of its own the
    plot fills the lower triangle of an (n-1) x (n-1) grid: the panel at row
    j, column i plots variable i against variable j+1. */
module Pair {
  import opened Results
  import opened Samples
  import opened Options

  /** One scatter or hexbin panel: its grid cell, the indices and names of the
      variables on its axes, whether divergences are overlaid, its axis labels,
      and whether its x tick labels are blanked. */
  datatype PairPanel = PairPanel(
    row: nat, col: nat, xIndex: nat, yIndex: nat, x: Name, y: Name,
    kind: PlotKind, divergent: bool,
    xlabel: Option<Name>, ylabel: Option<Name>, xTicksHidden: bool)

  /** The panel the grid loops make at row j, column i. The bottom row gets
      the x label, the first column the y label; every other panel has its
      x tick labels blanked, also in the first column, where the code blanks
      the x axis again. */
  function Cell(varnames: seq<Name>, kind: PlotKind, divergent: bool, i: nat, j: nat): PairPanel
    requires i <= j < |varnames| - 1
  {
    var bottom := j + 1 == |varnames| - 1;
    PairPanel(j, i, i, j + 1, varnames[i], varnames[j + 1], kind, divergent,
              if bottom then Some(varnames[i]) else None,
              if i == 0 then Some(varnames[j + 1]) else None,
              !bottom || i != 0)
  }

  /** The panels of column i, top to bottom: rows i .. n-2. */
  function ColumnCells(varnames: seq<Name>, kind: PlotKind, divergent: bool, i: nat): (cs: seq<PairPanel>)
    requires i < |varnames| - 1
    ensures |cs| == |varnames| - 1 - i
  {
    seq(|varnames| - 1 - i, k requires 0 <= k < |varnames| - 1 - i => Cell(varnames, kind, divergent, i, i + k))
  }

  /** The panels of the first m columns, in the order the loops make them. */
  function Triangle(varnames: seq<Name>, kind: PlotKind, divergent: bool, m: nat): seq<PairPanel>
    requires m <= |varnames| - 1
  {
    if m == 0 then [] else Triangle(varnames, kind, divergent, m - 1) + ColumnCells(varnames, kind, divergent, m - 1)
  }

  /** The first m columns hold (n-1) + (n-2) + ... + (n-m) panels. */
  lemma {:induction false} TriangleSize(varnames: seq<Name>, kind: PlotKind, divergent: bool, m: nat)
    requires m <= |varnames| - 1
    ensures 2 * |Triangle(varnames, kind, divergent, m)| == m * (2 * (|varnames| - 1) - m + 1)
  {
    if m > 0 {
      TriangleSize(varnames, kind, divergent, m - 1);
      var n1 := |varnames| - 1;
      assert m * (2 * n1 - m + 1) == (m - 1) * (2 * n1 - (m - 1) + 1) + 2 * (n1 - (m - 1));
    }
  }

  /** The whole triangle has n(n-1)/2 panels. */
  lemma PanelCount(varnames: seq<Name>, kind: PlotKind, divergent: bool)
    requires |varnames| >= 2
    ensures 2 * |Triangle(varnames, kind, divergent, |varnames| - 1)| == |varnames| * (|varnames| - 1)
  {
    TriangleSize(varnames, kind, divergent, |varnames| - 1);
  }

  /** Every panel of the first m columns is the loops' panel at its own cell,
      a cell of the lower triangle left of column m. */
  lemma {:induction false} TriangleCells(varnames: seq<Name>, kind: PlotKind, divergent: bool, m: nat, k: nat)
    requires m <= |varnames| - 1 && k < |Triangle(varnames, kind, divergent, m)|
    ensures var p := Triangle(varnames, kind, divergent, m)[k];
            p.col <= p.row < |varnames| - 1 && p.col < m
            && p == Cell(varnames, kind, divergent, p.col, p.row)
  {
    var prev := Triangle(varnames, kind, divergent, m - 1);
    if k < |prev| {
      TriangleCells(varnames, kind, divergent, m - 1, k);
    } else {
      var c := Cell(varnames, kind, divergent, m - 1, m - 1 + (k - |prev|));
      assert ColumnCells(varnames, kind, divergent, m - 1)[k - |prev|] == c;
      assert Triangle(varnames, kind, divergent, m)[k] == c;
      assert c.col == m - 1 && c.row == m - 1 + (k - |prev|);
    }
  }

  /** The panels come column by column and, within a column, top to bottom:
      a later panel has a later cell, so no cell is used twice. */
  lemma {:induction false} TriangleOrdered(varnames: seq<Name>, kind: PlotKind, divergent: bool, m: nat, k: nat, l: nat)
    requires m <= |varnames| - 1 && k < l < |Triangle(varnames, kind, divergent, m)|
    ensures var t := Triangle(varnames, kind, divergent, m);
            t[k].col < t[l].col || (t[k].col == t[l].col && t[k].row < t[l].row)
  {
    var prev := Triangle(varnames, kind, divergent, m - 1);
    if l < |prev| {
      TriangleOrdered(varnames, kind, divergent, m - 1, k, l);
    } else {
      var cl := Cell(varnames, kind, divergent, m - 1, m - 1 + (l - |prev|));
      assert ColumnCells(varnames, kind, divergent, m - 1)[l - |prev|] == cl;
      assert Triangle(varnames, kind, divergent, m)[l] == cl;
      if k < |prev| {
        TriangleCells(varnames, kind, divergent, m - 1, k);
        assert Triangle(varnames, kind, divergent, m)[k] == prev[k];
      } else {
        var ck := Cell(varnames, kind, divergent, m - 1, m - 1 + (k - |prev|));
        assert ColumnCells(varnames, kind, divergent, m - 1)[k - |prev|] == ck;
        assert Triangle(varnames, kind, divergent, m)[k] == ck;
      }
    }
  }

  /** Every cell of the lower triangle left of column m is drawn. */
  lemma {:induction false} TriangleComplete(varnames: seq<Name>, kind: PlotKind, divergent: bool, m: nat, i: nat, j: nat)
    returns (k: nat)
    requires m <= |varnames| - 1 && i < m && i <= j < |varnames| - 1
    ensures k < |Triangle(varnames, kind, divergent, m)|
    ensures Triangle(varnames, kind, divergent, m)[k] == Cell(varnames, kind, divergent, i, j)
  {
    var prev := Triangle(varnames, kind, divergent, m - 1);
    if i < m - 1 {
      k := TriangleComplete(varnames, kind, divergent, m - 1, i, j);
    } else {
      k := |prev| + (j - i);
      assert ColumnCells(varnames, kind, divergent, m - 1)[j - i] == Cell(varnames, kind, divergent, i, j);
    }
  }

  /** Each pair of distinct variables a < b is plotted exactly once, with
      variable a on the x axis and variable b on the y axis: every panel
      plots such a pair, no two panels the same pair, and the panel of
      variables i < j+1 (the cell at row j, column i) is drawn. */
  lemma PairsExactlyOnce(varnames: seq<Name>, kind: PlotKind, divergent: bool)
    requires |varnames| >= 2
    ensures var t := Triangle(varnames, kind, divergent, |varnames| - 1);
            && (forall k :: 0 <= k < |t| ==>
                  t[k].xIndex < t[k].yIndex < |varnames|
                  && t[k].x == varnames[t[k].xIndex] && t[k].y == varnames[t[k].yIndex])
            && (forall k, l :: 0 <= k < l < |t| ==> (t[k].xIndex, t[k].yIndex) != (t[l].xIndex, t[l].yIndex))
            && (forall i, j :: 0 <= i <= j < |varnames| - 1 ==> Cell(varnames, kind, divergent, i, j) in t)
  {
    var n1 := |varnames| - 1;
    var t := Triangle(varnames, kind, divergent, n1);
    forall k | 0 <= k < |t|
      ensures t[k].xIndex < t[k].yIndex < |varnames|
              && t[k].x == varnames[t[k].xIndex] && t[k].y == varnames[t[k].yIndex]
    {
      TriangleCells(varnames, kind, divergent, n1, k);
    }
    forall k, l | 0 <= k < l < |t|
      ensures (t[k].xIndex, t[k].yIndex) != (t[l].xIndex, t[l].yIndex)
    {
      TriangleOrdered(varnames, kind, divergent, n1, k, l);
      TriangleCells(varnames, kind, divergent, n1, k);
      TriangleCells(varnames, kind, divergent, n1, l);
    }
    forall i, j | 0 <= i <= j < |varnames| - 1
      ensures Cell(varnames, kind, divergent, i, j) in t
    {
      var k := TriangleComplete(varnames, kind, divergent, n1, i, j);
    }
  }

  /** The labels of the triangle: the x label, variable i, exactly on the
      bottom row; the y label, variable j+1, exactly in the first column; the
      x tick labels kept only on the bottom-left panel. */
  lemma LabelPlacement(varnames: seq<Name>, kind: PlotKind, divergent: bool, k: nat)
    requires |varnames| >= 2 && k < |Triangle(varnames, kind, divergent, |varnames| - 1)|
    ensures var p := Triangle(varnames, kind, divergent, |varnames| - 1)[k];
            && (p.xlabel.Some? <==> p.row == |varnames| - 2)
            && (p.xlabel.Some? ==> p.xlabel.value == p.x)
            && (p.ylabel.Some? <==> p.col == 0)
            && (p.ylabel.Some? ==> p.ylabel.value == p.y)
            && (p.xTicksHidden <==> !(p.row == |varnames| - 2 && p.col == 0))
  {
    TriangleCells(varnames, kind, divergent, |varnames| - 1, k);
  }

  /** What pairplot leaves behind: the figure size, the grid it made (if
      any) and the panels drawn. */
  datatype PairFigure = PairFigure(figsize: (real, real), grid: Option<nat>, panels: seq<PairPanel>)

  const TooFewVariables: Error := Exception("Number of variables to be plotted must be 2 or greater.")

  /** `figsize=None` becomes `(8 + n, 8 + n)`. */
  function PairFigsize(figsize: Option<(real, real)>, n: nat): (r: (real, real))
    ensures figsize.None? ==> r.0 == r.1 == 8.0 + n as real
    ensures figsize.Some? ==> r == figsize.value
  {
    if figsize.Some? then figsize.value else ((8 + n) as real, (8 + n) as real)
  }

  /** The inner loop of the grid: the panels of column i, each labelled by
      the conditions on its row and column. */
  method DrawColumn(varnames: seq<Name>, kind: PlotKind, divergent: bool, i: nat) returns (cells: seq<PairPanel>)
    requires i < |varnames| - 1
    ensures cells == ColumnCells(varnames, kind, divergent, i)
  {
    var n := |varnames|;
    ghost var column := ColumnCells(varnames, kind, divergent, i);
    cells := [];
    var j := i;
    while j < n - 1
      invariant i <= j <= n - 1
      invariant cells == column[..j - i]
    {
      var xlabel: Option<Name> := None;
      var ylabel: Option<Name> := None;
      var hidden := false;
      if j + 1 != n - 1 {
        hidden := true;
      } else {
        xlabel := Some(varnames[i]);
      }
      if i != 0 {
        hidden := true;
      } else {
        ylabel := Some(varnames[j + 1]);
      }
      assert column[..j + 1 - i] == column[..j - i] + [column[j - i]];
      assert column[j - i] == Cell(varnames, kind, divergent, i, j);
      cells := cells + [PairPanel(j, i, i, j + 1, varnames[i], varnames[j + 1], kind, divergent,
                                  xlabel, ylabel, hidden)];
      j := j + 1;
    }
    assert column[..j - i] == column;
  }

  /** The marker size `ms` is bound only when no text size is given; a
      scatter, or the divergence overlay, reads it, and raises when it was
      never bound. */
  const MarkerSizeUnbound: Error := UnboundLocalError("local variable 'ms' referenced before assignment")

  /** Whether drawing a panel reads the marker size. */
  predicate UsesMarkerSize(kind: PlotKind, divergent: bool)
  {
    kind == Scatter || divergent
  }

  /** Whether pairplot draws at all: the single panel on a given axes, or the
      grid when neither a grid spec nor an axes is given. */
  predicate DrawsPanels(n: nat, gsGiven: bool, axGiven: bool)
  {
    (n == 2 && axGiven) || (!gsGiven && !axGiven)
  }

  /** pairplot on the resolved variable names. `textsizeGiven` says whether
      the caller passed a text size, `gsGiven` and `axGiven` whether they
      passed a grid spec or an axes. With an axes and two variables the one
      panel goes on it; with neither, a grid of n-1 rows and columns is made
      and its lower triangle filled; otherwise nothing is drawn. Whatever is
      drawn first raises when a text size was given and the panel reads the
      marker size. */
  method Pairplot(varnames: seq<Name>, kind: string, divergences: bool, figsize: Option<(real, real)>,
                  textsizeGiven: bool, gsGiven: bool, axGiven: bool) returns (r: Result<PairFigure>)
    ensures ParseKind(kind).Err? ==> r == Err(ParseKind(kind).error)
    ensures ParseKind(kind).Ok? && |varnames| < 2 ==> r == Err(TooFewVariables)
    ensures ParseKind(kind).Ok? && |varnames| >= 2 ==>
              (r.Err? <==> textsizeGiven && UsesMarkerSize(ParseKind(kind).value, divergences)
                           && DrawsPanels(|varnames|, gsGiven, axGiven))
    ensures ParseKind(kind).Ok? && |varnames| >= 2 && r.Err? ==> r.error == MarkerSizeUnbound
    ensures r.Ok? ==> |varnames| >= 2 && r.value.figsize == PairFigsize(figsize, |varnames|)
    ensures r.Ok? && |varnames| == 2 && axGiven ==>
              r.value.grid == None
              && r.value.panels == [PairPanel(0, 0, 0, 1, varnames[0], varnames[1], ParseKind(kind).value, divergences,
                                              Some(varnames[0]), Some(varnames[1]), false)]
    ensures r.Ok? && !gsGiven && !axGiven ==>
              r.value.grid == Some(|varnames| - 1)
              && r.value.panels == Triangle(varnames, ParseKind(kind).value, divergences, |varnames| - 1)
    ensures r.Ok? && !DrawsPanels(|varnames|, gsGiven, axGiven) ==> r.value.grid == None && r.value.panels == []
  {
    var k :- ParseKind(kind);
    var n := |varnames|;
    var size := PairFigsize(figsize, n);
    var markerSizeBound := !textsizeGiven;
    if n < 2 {
      return Err(TooFewVariables);
    }
    var panels: seq<PairPanel> := [];
    var grid: Option<nat> := None;
    if n == 2 && axGiven {
      if !markerSizeBound && UsesMarkerSize(k, divergences) {
        return Err(MarkerSizeUnbound);
      }
      panels := [PairPanel(0, 0, 0, 1, varnames[0], varnames[1], k, divergences,
                           Some(varnames[0]), Some(varnames[1]), false)];
    }
    if !gsGiven && !axGiven {
      grid := Some(n - 1);
      var i := 0;
      while i < n - 1
        invariant 0 <= i <= n - 1
        invariant panels == Triangle(varnames, k, divergences, i)
        invariant i > 0 ==> markerSizeBound || !UsesMarkerSize(k, divergences)
      {
        if !markerSizeBound && UsesMarkerSize(k, divergences) {
          return Err(MarkerSizeUnbound);
        }
        var column := DrawColumn(varnames, k, divergences, i);
        panels := panels + column;
        i := i + 1;
      }
    }
    return Ok(PairFigure(size, grid, panels));
  }
}
