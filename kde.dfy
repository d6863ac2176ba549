/** The discrete skeleton of `fast_kde` and the orientation logic of `kdeplot`
    (kdeplot.py). The numerical parts stay abstract: the entropy-based spread,
    the kernel width, numpy's 200-bin histogram and scipy's same-size
    convolution are supplied by the caller as a
    `KdeNumerics` value; what is modelled exactly is the finite filtering, the
    bounds, the bandwidth guard, the padding width, the reflection padding with
    Python's slice clipping, and the 200-point output window. */
module Kde {
  import opened Results
  import opened Seqs
  import opened Samples

  /** `nx`, the number of grid points of every density estimate. */
  const NX: nat := 200

  // ---------------------------------------------------------------------------
  // Python slices

  /** A Python slice bound after normalisation for step +1: negative bounds
      count from the end, and the result is clipped to `[0, len]`. */
  function ForwardBound(i: int, len: nat): (b: nat)
    ensures b <= len
    ensures 0 <= i <= len ==> b == i
  {
    if i < 0 then (if i + len < 0 then 0 else i + len)
    else if i > len then len
    else i
  }

  /** `s[start:stop]`. */
  function Slice<T>(s: seq<T>, start: int, stop: int): (r: seq<T>)
    ensures 0 <= start <= stop <= |s| ==> r == s[start..stop]
    ensures |r| <= |s|
  {
    var a, b := ForwardBound(start, |s|), ForwardBound(stop, |s|);
    if a < b then s[a..b] else []
  }

  /** A Python slice bound after normalisation for step -1: negative bounds
      count from the end, and the result is clipped to `[-1, len - 1]`, where
      -1 means "before the first element". */
  function BackwardBound(i: int, len: nat): (b: int)
    ensures -1 <= b < len
    ensures -1 <= i < len && i != -1 ==> b == i
  {
    if i < 0 then (if i + len < 0 then -1 else i + len)
    else if i >= len then len - 1
    else i
  }

  /** `s[first], s[first - 1], ..., s[last]`, or empty when `first < last`. */
  function Descending<T>(s: seq<T>, first: int, last: int): (r: seq<T>)
    requires -1 <= first < |s| && 0 <= last
    ensures |r| == if first < last then 0 else first - last + 1
    ensures forall k :: 0 <= k < |r| ==> r[k] == s[first - k]
    decreases first - last
  {
    if first < last then [] else [s[first]] + Descending(s, first - 1, last)
  }

  /** `s[start:stop:-1]`: the elements from index `start` down to, but not
      including, index `stop`, after the bounds are normalised and clipped. */
  function ReverseSlice<T>(s: seq<T>, start: int, stop: int): (r: seq<T>)
    ensures |r| <= |s|
  {
    var a, b := BackwardBound(start, |s|), BackwardBound(stop, |s|);
    if b < a then Descending(s, a, b + 1) else []
  }

  // ---------------------------------------------------------------------------
  // Padding and window

  /** The padding width: twice the kernel width, capped at nx. */
  function PadWidth(kernNx: int): (npad: int)
    ensures npad <= NX && npad <= 2 * kernNx
    ensures kernNx >= 0 ==> 0 <= npad
    ensures npad == 2 * kernNx || npad == NX
  {
    if NX <= 2 * kernNx then NX else 2 * kernNx
  }

  /** The histogram with mirrored copies of its edges on both sides, built with
      Python's negative-step slices. */
  function Padded<T>(grid: seq<T>, npad: int): seq<T>
  {
    ReverseSlice(grid, npad, 0) + grid + ReverseSlice(grid, NX, NX - npad)
  }

  /** The left mirror holds bins npad, ..., 1 (bin 0 is not repeated); at
      npad == nx the start is clipped, so it holds bins nx-1, ..., 1. */
  lemma LeftMirror<T>(grid: seq<T>, npad: int)
    requires |grid| == NX && 0 <= npad <= NX
    ensures var left := ReverseSlice(grid, npad, 0);
            && |left| == (if npad == NX then NX - 1 else npad)
            && forall k :: 0 <= k < |left| ==> left[k] == grid[|left| - k]
  {
  }

  /** The right mirror holds bins nx-1, ..., nx+1-npad: it starts at the edge
      bin, which it repeats, and is one bin shorter than npad. */
  lemma RightMirror<T>(grid: seq<T>, npad: int)
    requires |grid| == NX && 0 <= npad <= NX
    ensures var right := ReverseSlice(grid, NX, NX - npad);
            && |right| == (if npad == 0 then 0 else npad - 1)
            && forall k :: 0 <= k < |right| ==> right[k] == grid[NX - 1 - k]
  {
  }

  /** The padded grid has room for the window `[npad, npad + nx)`. */
  lemma PaddedLength<T>(grid: seq<T>, npad: int)
    requires |grid| == NX && 0 <= npad <= NX
    ensures |Padded(grid, npad)| == NX + (if npad == NX then NX - 1 else npad) + (if npad == 0 then 0 else npad - 1)
    ensures |Padded(grid, npad)| >= npad + NX
  {
    LeftMirror(grid, npad);
    RightMirror(grid, npad);
  }

  /** Below full padding, the window `[npad, npad + nx)` of the padded grid is
      exactly the histogram. */
  lemma {:induction false} WindowIsHistogram<T>(grid: seq<T>, npad: int)
    requires |grid| == NX && 0 <= npad < NX
    ensures Slice(Padded(grid, npad), npad, npad + NX) == grid
  {
    LeftMirror(grid, npad);
    PaddedLength(grid, npad);
    var left := ReverseSlice(grid, npad, 0);
    var right := ReverseSlice(grid, NX, NX - npad);
    assert Padded(grid, npad) == left + grid + right;
    assert (left + grid + right)[npad..npad + NX] == grid;
  }

  /** At full padding (npad == nx) the left mirror is clipped to nx-1 bins, so
      the window `[nx, 2*nx)` starts one bin late: it holds bins 1 .. nx-1 and
      then bin nx-1 again, from the right mirror. */
  lemma {:induction false} WindowAtFullPadding<T>(grid: seq<T>)
    requires |grid| == NX
    ensures Slice(Padded(grid, NX), NX, 2 * NX) == grid[1..] + [grid[NX - 1]]
  {
    LeftMirror(grid, NX);
    RightMirror(grid, NX);
    PaddedLength(grid, NX);
    var left := ReverseSlice(grid, NX, 0);
    var right := ReverseSlice(grid, NX, 0);
    var p := left + grid + right;
    assert Padded(grid, NX) == p;
    assert |left| == NX - 1;
    assert p[NX..2 * NX] == grid[1..] + [right[0]];
  }

  /** So the window differs from the histogram at full padding unless the
      histogram is constant from bin 0 on. */
  lemma FullPaddingShiftsWindow<T>(grid: seq<T>)
    requires |grid| == NX && grid[0] != grid[1]
    ensures Slice(Padded(grid, NX), NX, 2 * NX) != grid
  {
    WindowAtFullPadding(grid);
    assert (grid[1..] + [grid[NX - 1]])[0] == grid[1];
  }

  // ---------------------------------------------------------------------------
  // fast_kde

  /** The numerics `fast_kde` delegates: the entropy of the shifted samples
      (which may be NaN or infinite), the kernel width for n samples and a
      spread, numpy's histogram with nx bins, and the smoothing step, which
      builds scipy's Gaussian window of the given width for n samples and
      spread (its sigma is the spread times n to the power -0.2) and convolves
      the grid with it. Building the window or convolving may raise. */
  datatype KdeNumerics = KdeNumerics(
    entropy: seq<real> -> Float,
    kernelWidth: (nat, real) -> int,
    histogram: seq<real> -> seq<int>,
    smooth: (seq<int>, int, nat, real) -> Result<seq<real>>)

  /** What numpy and scipy guarantee: the histogram has nx bins, a Gaussian
      window of negative length is refused, what the window and the
      convolution raise is a ValueError, and a successful `mode='same'`
      convolution keeps the length of its first argument. */
  ghost predicate Shaped(num: KdeNumerics)
  {
    && (forall xs :: |num.histogram(xs)| == NX)
    && (forall g, k, n, s :: k < 0 ==> num.smooth(g, k, n, s).Err?)
    && (forall g, k, n, s :: num.smooth(g, k, n, s).Err? ==> num.smooth(g, k, n, s).error.ValueError?)
    && (forall g, k, n, s :: num.smooth(g, k, n, s).Ok? ==> |num.smooth(g, k, n, s).value| == |g|)
  }

  /** `x[np.isfinite(x)]`: the finite samples, in their original order. */
  function Finite(xs: seq<Float>): (r: seq<real>)
    ensures |r| <= |xs|
    ensures forall y :: y in r <==> Float.Finite(y) in xs
    ensures (forall k :: 0 <= k < |xs| ==> xs[k].Finite?) ==>
              |r| == |xs| && forall k :: 0 <= k < |xs| ==> r[k] == xs[k].value
  {
    if xs == [] then []
    else
      var rest := Finite(xs[1..]);
      assert forall v :: v in xs <==> v == xs[0] || v in xs[1..];
      if xs[0].Finite? then [xs[0].value] + rest else rest
  }

  /** Filtering keeps the order and the multiplicity of what it keeps: the
      finite samples of a concatenation are those of the first part followed
      by those of the second. */
  lemma {:induction false} FiniteKeepsOrder(xs: seq<Float>, ys: seq<Float>)
    ensures Finite(xs + ys) == Finite(xs) + Finite(ys)
  {
    if xs == [] {
      assert xs + ys == ys;
    } else {
      var zs := xs + ys;
      assert zs[0] == xs[0] && zs[1..] == xs[1..] + ys;
      FiniteKeepsOrder(xs[1..], ys);
      var head := if xs[0].Finite? then [xs[0].value] else [];
      assert Finite(xs) == head + Finite(xs[1..]);
      assert Finite(zs) == head + Finite(xs[1..] + ys);
      assert head + (Finite(xs[1..]) + Finite(ys)) == (head + Finite(xs[1..])) + Finite(ys);
    }
  }

  /** Every sample minus the least one: `x - xmin`. */
  function Shifted(xs: seq<real>, offset: real): (r: seq<real>)
    ensures |r| == |xs| && forall k :: 0 <= k < |xs| ==> r[k] == xs[k] - offset
  {
    seq(|xs|, k requires 0 <= k < |xs| => xs[k] - offset)
  }

  /** The spread: the entropy times `bw`, replaced by 0 when not finite. A
      non-finite entropy stays non-finite whatever `bw` is (NaN or an
      infinity times anything is NaN or an infinity), so only a finite
      entropy gives a non-zero result. */
  function Spread(e: Float, bw: real): (std: real)
    ensures e.Finite? ==> std == e.value * bw
    ensures !e.Finite? ==> std == 0.0
  {
    if e.Finite? then e.value * bw else 0.0
  }

  /** The spread of a non-empty sample. */
  function SampleSpread(x: seq<real>, bw: real, num: KdeNumerics): real
    requires x != []
  {
    Spread(num.entropy(Shifted(x, Min(x))), bw)
  }

  /** The kernel width of a non-empty sample. */
  function KernelWidth(x: seq<real>, bw: real, num: KdeNumerics): int
    requires x != []
  {
    num.kernelWidth(|x|, SampleSpread(x, bw, num))
  }

  /** The grid handed to the convolution: the histogram, mirrored at both
      ends by the padding width. */
  function PaddedGrid(x: seq<real>, bw: real, num: KdeNumerics): seq<int>
    requires x != []
  {
    Padded(num.histogram(x), PadWidth(KernelWidth(x, bw, num)))
  }

  /** The smoothed padded grid, or the error scipy raises. */
  function Smoothed(x: seq<real>, bw: real, num: KdeNumerics): Result<seq<real>>
    requires x != []
  {
    num.smooth(PaddedGrid(x, bw, num), KernelWidth(x, bw, num), |x|, SampleSpread(x, bw, num))
  }

  /** The result of `fast_kde`: the density grid and the sample's bounds. */
  datatype Estimate = Estimate(density: seq<real>, lower: real, upper: real)

  /** `fast_kde(x, bw)`, up to its final division by the normalisation
      constant. `np.min` of no finite samples raises ValueError; after that
      only the smoothing can raise, and always does for a negative kernel
      width. On success the density is the 200 values of the smoothed grid
      that sit past the left padding, and the bounds are the least and the
      greatest finite sample. */
  function FastKde(xs: seq<Float>, bw: real, num: KdeNumerics): (r: Result<Estimate>)
    requires Shaped(num)
    ensures r.Err? <==> Finite(xs) == [] || Smoothed(Finite(xs), bw, num).Err?
    ensures Finite(xs) == [] ==> r == Err(ValueError("zero-size array to reduction operation minimum which has no identity"))
    ensures Finite(xs) != [] && r.Err? ==> r.error == Smoothed(Finite(xs), bw, num).error
    ensures Finite(xs) != [] && KernelWidth(Finite(xs), bw, num) < 0 ==> r.Err?
    ensures r.Err? ==> r.error.ValueError?
    ensures r.Ok? ==> r.value.lower in Finite(xs) && r.value.upper in Finite(xs)
    ensures r.Ok? ==> forall y :: y in Finite(xs) ==> r.value.lower <= y <= r.value.upper
    ensures r.Ok? ==> |r.value.density| == NX
    ensures r.Ok? ==> var npad := PadWidth(KernelWidth(Finite(xs), bw, num));
                      r.value.density == Slice(Smoothed(Finite(xs), bw, num).value, npad, npad + NX)
  {
    var x := Finite(xs);
    if x == [] then Err(ValueError("zero-size array to reduction operation minimum which has no identity"))
    else
      var smoothed := Smoothed(x, bw, num);
      if smoothed.Err? then Err(smoothed.error)
      else
        var npad := PadWidth(KernelWidth(x, bw, num));
        PaddedLength(num.histogram(x), npad);
        Ok(Estimate(Slice(smoothed.value, npad, npad + NX), Min(x), Max(x)))
  }

  /** When the padding stays below nx, the window the density is read from is
      aligned with the histogram: in the padded grid that is smoothed, those
      200 positions hold the histogram's own bins. */
  lemma KdeWindowAligned(xs: seq<Float>, bw: real, num: KdeNumerics)
    requires Shaped(num) && Finite(xs) != []
    ensures var npad := PadWidth(KernelWidth(Finite(xs), bw, num));
            0 <= npad < NX ==> Slice(PaddedGrid(Finite(xs), bw, num), npad, npad + NX) == num.histogram(Finite(xs))
  {
    var x := Finite(xs);
    var npad := PadWidth(KernelWidth(x, bw, num));
    if 0 <= npad < NX {
      WindowIsHistogram(num.histogram(x), npad);
    }
  }

  // ---------------------------------------------------------------------------
  // kdeplot

  /** The spacing of `np.linspace(lower, upper, n)` for n >= 2. */
  function Step(lower: real, upper: real, n: nat): real
    requires n >= 2
  {
    (upper - lower) / ((n - 1) as real)
  }

  /** The i-th point of a grid starting at `lower` with spacing `step`. */
  function GridPoint(lower: real, step: real, i: nat): real
  {
    lower + (i as real) * step
  }

  /** `np.linspace(lower, upper, n)`. */
  function Linspace(lower: real, upper: real, n: nat): (r: seq<real>)
    ensures |r| == n
    ensures n >= 1 ==> r[0] == lower
    ensures n >= 2 ==> r[n - 1] == upper
  {
    if n == 1 then [lower]
    else if n == 0 then []
    else
      var step := Step(lower, upper, n);
      DivCancels(upper - lower, (n - 1) as real);
      seq(n, i requires 0 <= i < n => GridPoint(lower, step, i))
  }

  /** The grid points are increasing from `lower` to `upper`. */
  lemma LinspaceBetween(lower: real, upper: real, n: nat, i: nat, j: nat)
    requires lower <= upper && i <= j < n
    ensures lower <= Linspace(lower, upper, n)[i] <= Linspace(lower, upper, n)[j] <= upper
  {
    if n >= 2 {
      var step := Step(lower, upper, n);
      DivNonnegative(upper - lower, (n - 1) as real);
      GridPointsOrdered(lower, step, i, j, n - 1);
      DivCancels(upper - lower, (n - 1) as real);
      assert GridPoint(lower, step, n - 1) == upper;
    }
  }

  /** Every point of the grid lies between the ends, and the points never
      decrease. */
  lemma LinspaceSorted(lower: real, upper: real, n: nat)
    requires lower <= upper
    ensures forall i, j :: 0 <= i <= j < n ==>
              lower <= Linspace(lower, upper, n)[i] <= Linspace(lower, upper, n)[j] <= upper
  {
    forall i, j | 0 <= i <= j < n
      ensures lower <= Linspace(lower, upper, n)[i] <= Linspace(lower, upper, n)[j] <= upper
    {
      LinspaceBetween(lower, upper, n, i, j);
    }
  }

  lemma GridPointsOrdered(lower: real, step: real, a: nat, b: nat, d: nat)
    requires a <= b <= d && 0.0 <= step
    ensures lower <= GridPoint(lower, step, a) <= GridPoint(lower, step, b) <= GridPoint(lower, step, d)
  {
    StepsOrdered(lower, step, a as real, b as real, d as real);
    assert GridPoint(lower, step, a) == lower + (a as real) * step;
    assert GridPoint(lower, step, b) == lower + (b as real) * step;
    assert GridPoint(lower, step, d) == lower + (d as real) * step;
  }

  lemma DivNonnegative(w: real, d: real)
    requires w >= 0.0 && d > 0.0
    ensures w / d >= 0.0
  {
  }

  lemma DivCancels(w: real, d: real)
    requires d > 0.0
    ensures d * (w / d) == w
  {
  }

  lemma StepsOrdered(lower: real, step: real, a: real, b: real, d: real)
    requires 0.0 <= a <= b <= d && 0.0 <= step
    ensures lower <= lower + a * step <= lower + b * step <= lower + d * step
  {
    MulNonnegative(a, step);
    MulNonnegative(b - a, step);
    MulNonnegative(d - b, step);
    assert (b - a) * step == b * step - a * step;
    assert (d - b) * step == d * step - b * step;
  }

  lemma MulNonnegative(x: real, y: real)
    requires 0.0 <= x && 0.0 <= y
    ensures 0.0 <= x * y
  {
  }

  /** Which axis `kdeplot` pins at 0 (`set_ylim(0)` or `set_xlim(0)`). */
  datatype Axis = XAxis | YAxis

  /** The curve `kdeplot` draws: the `xs` and `ys` handed to `ax.plot`. */
  datatype Curve = Curve(xs: seq<real>, ys: seq<real>, pinnedAtZero: Axis)

  /** `kdeplot(values, bw, rotated)`: the grid against the density, swapped
      when `rotated`, with the density's axis starting at 0. */
  function KdePlot(values: seq<Float>, bw: real, rotated: bool, num: KdeNumerics): (r: Result<Curve>)
    requires Shaped(num)
    ensures r.Err? <==> FastKde(values, bw, num).Err?
    ensures r.Ok? ==>
              var e := FastKde(values, bw, num).value;
              var grid := Linspace(e.lower, e.upper, |e.density|);
              && (!rotated ==> r.value.xs == grid && r.value.ys == e.density && r.value.pinnedAtZero == YAxis)
              && (rotated ==> r.value.xs == e.density && r.value.ys == grid && r.value.pinnedAtZero == XAxis)
  {
    var e :- FastKde(values, bw, num);
    var x := Linspace(e.lower, e.upper, |e.density|);
    if rotated then Ok(Curve(e.density, x, XAxis)) else Ok(Curve(x, e.density, YAxis))
  }

  /** Rotating exchanges the two coordinates and the pinned axis, and
      nothing else. */
  lemma RotationSwaps(values: seq<Float>, bw: real, num: KdeNumerics)
    requires Shaped(num)
    ensures KdePlot(values, bw, true, num).Ok? <==> KdePlot(values, bw, false, num).Ok?
    ensures KdePlot(values, bw, true, num).Ok? ==>
              KdePlot(values, bw, true, num).value.xs == KdePlot(values, bw, false, num).value.ys
              && KdePlot(values, bw, true, num).value.ys == KdePlot(values, bw, false, num).value.xs
              && KdePlot(values, bw, true, num).value.pinnedAtZero != KdePlot(values, bw, false, num).value.pinnedAtZero
  {
  }
}
