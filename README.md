# A verified model of arviz's plotting logic

This project models the logic inside five plotting functions of an early
version of arviz, the Python library for exploring Bayesian posterior
samples: `forestplot`, `densityplot`, `pairplot`, `jointplot`, and
`kdeplot` with its `fast_kde` estimator. What is modelled is what these
functions compute before matplotlib draws anything:

- argument normalisation and the errors raised on bad arguments;
- which variables and traces get a panel, and in what order;
- the row, offset, band and label arithmetic of the forest plot;
- the HPD cut and binning of the density plot;
- the lower-triangle panel matrix of the pair plot;
- the axes geometry of the joint plot;
- the discrete skeleton of `fast_kde`: finite filtering, bounds, padding by mirroring, and the window taken after the convolution.

Drawing calls become records. For example, `Forest.TreeMark` is one
error bar, `Density.DensityMarks` is what `_d_helper` puts on a panel, and
`Pair.PairPanel` is one scatter panel. Each plotting function returns a
figure record holding them, or the error the Python code would raise
(`Results.Error`: ValueError, Exception, IndexError, KeyError, TypeError, UnboundLocalError, and pandas' IndexingError).

## Modules

- `Results` defines `Option`, `Result` and the Python exception kinds.
- `Samples` holds posterior samples after `trace_to_dataframe`:
  - a `Trace` is a table: column labels plus the samples under each label;
  - a `Float` is a finite double, NaN or an infinity;
  - `Kind` is numpy's dtype kind.
- `Seqs` holds generic sequence facts: flattening, first-seen deduplication, sorted-unique (`np.unique`), maximum multiplicity (`value_counts()[0]`) and decimal formatting.
- `Options` holds the normalisation shared by forestplot and densityplot: model names, colours, the variable list and the default figure size. It also has the `kind` check shared by pairplot and jointplot.
- `Forest`, `Density`, `Pair`, `Joint` and `Kde` each follow one source file.

## What comes in from outside

Numerical helpers whose code is outside this model are parameters:

- quantiles;
- `hpd`, `gelman_rubin` and `effective_n`;
- `expand_variable_names`;
- `np.mean` and `np.median`;
- `get_bins`;
- the numerics inside `fast_kde`: the entropy spread, the kernel width, `np.histogram`, and the smoothing by scipy's Gaussian window and convolution, which may raise.

In forestplot and densityplot, the per-trace loops are imperative methods. Each method is proved equal to a recursive specification function in which the first error wins. The properties are then proved about those specification functions.

Where the docstrings and the code disagree, the model follows the code:

- jointplot's default figure size is (6, 6), not (8, 8);
- densityplot accepts `bw` but `_d_helper` never passes it on, so its KDE always uses the default 4.5;
- densityplot's `ax` argument is ignored.

The model also states where the code differs from what a reader might expect:

- At full padding (a kernel of 100 bins or more), the mirrored left pad in `fast_kde` is one bin short, so the window kept after the convolution is shifted by one bin (`Kde.WindowAtFullPadding`, `Kde.FullPaddingShiftsWindow`).
- In pairplot's grid, panels outside the first column blank the x tick labels a second time, and no y tick labels are ever blanked (`Pair.LabelPlacement`).
- forestplot draws the quantiles at `.loc[np.unique(qlist)]`, which returns every row carrying each label. The levels drawn are therefore always as many as `qlist` has, sorted with repeats kept; for alpha at or above 0.5 (with quartiles) or 1 (without) they are not `qlist` in its own order (`Forest.Levels`).
- forestplot takes a trace's chain count from its most repeated column label, and with several chains reads chain j of a variable as column j of that variable. A variable with fewer columns than the trace has chains therefore raises: with a single column the lookup indexes a Series twice (IndexingError), otherwise it runs past the last column (IndexError) (`Forest.PairMarks`, `Forest.DrawChains`).
- pairplot binds the marker size `ms` only when no text size is given. With a text size, the first scatter or divergence overlay raises UnboundLocalError (`Pair.Pairplot`).
- jointplot sends integer samples to a histogram and everything else to a KDE. densityplot sends float samples to a KDE and everything else to a histogram. So unsigned and boolean samples are treated differently by the two.

## Model

| member | source | states |
|---|---|---|
| Samples.ChainCount | arviz/plots/forestplot.py:97 | the number of chains is the largest multiplicity of a column label, and at least 1 for a non-empty table |
| Seqs.Decimal | arviz/plots/forestplot.py:80 | `'{}'.format(i)` writes only digits and no leading zero; `Seqs.DecimalRoundTrip` parses it back to i and `Seqs.DecimalInjective` makes it one-to-one |
| Seqs.Dedup | arviz/plots/forestplot.py:99-105 | first-seen deduplication keeps exactly the elements of its input, each once |
| Seqs.SortedUnique | arviz/plots/forestplot.py:110 | `np.unique` gives a strictly increasing sequence with exactly the input's elements |
| Options.NormaliseModels | arviz/plots/forestplot.py:78-84 | default names `m_i` for several traces and `['']` otherwise; explicit names are kept iff there is one per trace, else ValueError with the source's message |
| Options.ModelsMatchTraces | arviz/plots/forestplot.py:78-84 | after normalisation there is one name per trace, except the lone `''` for an empty trace list |
| Options.DefaultModelNamesDistinct | arviz/plots/forestplot.py:79-80 | the default model names are pairwise distinct |
| Options.ExpandColors | arviz/plots/forestplot.py:86-89 | `'cycle'` gives `C(i mod 10)` per model, another string is repeated per model, a list is kept as it is |
| Options.CycleColorsRepeatEveryTen | arviz/plots/forestplot.py:86-87 | two models share a cycle colour iff their indices agree modulo 10 |
| Options.UniqueNames | arviz/plots/forestplot.py:110 | the unique names are strictly increasing, have no duplicate, and are exactly the names given |
| Options.Expanded | arviz/plots/forestplot.py:107-109 | one expansion per trace, in trace order |
| Options.DefaultVarnamesAreFirstSeenUnion | arviz/plots/forestplot.py:99-105 | without `varnames`: no duplicates, a name is listed iff some trace has that column, names ordered by first appearance |
| Options.GivenVarnamesAreSortedUnion | arviz/plots/forestplot.py:106-110 | with `varnames`: sorted, and a name is listed iff some trace's expansion yields it |
| Options.SelectVarnames | arviz/plots/densityplot.py:89-100 | the append loop and the extend-then-unique loop compute exactly the variable list specified above |
| Options.ParseKind | arviz/plots/pairplot.py:48-49 | `kind` is accepted iff it is 'scatter' or 'hexbin', otherwise ValueError naming the kind |
| Options.DefaultFigsize | arviz/plots/forestplot.py:116-117 | a given size is kept; the default is 6 wide and 2 per variable high |
| Forest.Qlist | arviz/plots/forestplot.py:92-95 | five levels with quartiles, three without: alpha/2 first, 1-alpha/2 last, 0.5 in the middle, 0.25 and 0.75 as quartiles |
| Forest.QlistIncreasingIff | arviz/plots/forestplot.py:92-95 | the levels are strictly increasing iff alpha is below 0.5 (with quartiles) or 1 (without) |
| Forest.UniqueLevels | arviz/plots/forestplot.py:185 | `np.unique(qlist)` is strictly increasing, has exactly the levels of qlist, and is not longer |
| Forest.UniqueKeepsQlistIff | arviz/plots/forestplot.py:185 | `np.unique` leaves qlist unchanged iff alpha is below the bound above |
| Forest.Levels | arviz/plots/forestplot.py:185 | the levels whose quantiles are drawn: as many as qlist has (five or three), never decreasing, 0.5 in the middle |
| Forest.LevelsRearrangeQlist | arviz/plots/forestplot.py:185 | `.loc[np.unique(qlist)]` returns qlist's levels rearranged by a one-to-one index map, repeats kept; below the bound, qlist itself |
| Forest.LevelsAreUniqueLabels | arviz/plots/forestplot.py:185 | every level drawn is a label of `np.unique(qlist)`, and every such label is drawn |
| Forest.QuantileRow | arviz/plots/forestplot.py:179-185 | one quantile per level, in level order |
| Forest.WithHpd | arviz/plots/forestplot.py:187-189 | the first quantile becomes the HPD lower bound, the last the upper bound, the rest are unchanged |
| Forest.SubstituteHpd | arviz/plots/forestplot.py:187-189 | the in-place writes into the quantile array leave exactly the sequence above |
| Forest.PlotTree | arviz/plots/forestplot.py:282-318 | outer bar from first to last tile; with quartiles an inner bar from tile 1 to 3 and the median at tile 2, else the median at tile 1; IndexError when too few tiles |
| Forest.TreeShowsHpdQuartilesAndMedian | arviz/plots/forestplot.py:185-200 | for any alpha, a chain's tree spans its HPD interval and marks its 0.5 quantile; with quartiles the inner bar lies between quantiles at levels within [0.25, 0.75], and for alpha at most 0.5 it is the 0.25–0.75 bar |
| Forest.Offsets | arviz/plots/forestplot.py:175-176 | chain 0 sits on the row; chain i ≥ 1 sits (i+1)/2 spacings away, alternating in sign |
| Forest.OffsetsAlternateOutwards | arviz/plots/forestplot.py:175-176 | odd chains lie above and even chains below the row, each further out than every earlier chain, so no two chains coincide |
| Forest.NChains | arviz/plots/forestplot.py:97 | one chain count per trace, each at least 1; IndexError iff some trace has no column |
| Forest.DiagnosticFlags | arviz/plots/forestplot.py:112-113 | a trace shows R-hat (or n_eff) iff the option is on and it has more than one chain |
| Forest.WidthRatios | arviz/plots/forestplot.py:123-130 | ratios are 3 for the intervals and 1 for each diagnostic column shown |
| Forest.DiagnosticColumnsNeedChains | arviz/plots/forestplot.py:112-130 | a diagnostic column exists only if some trace has several chains, and the R-hat column exists iff R-hat is on and some trace has several chains |
| Forest.ChainQuants | arviz/plots/forestplot.py:179-189 | one quantile per level: the first and last are the chain's HPD bounds, each other one the chain's quantile at its level |
| Forest.AllChainQuants | arviz/plots/forestplot.py:177-192 | one quantile row per chain, in chain order |
| Forest.ChainTree | arviz/plots/forestplot.py:194-204 | chain j's tree sits at the chain's height in the trace's colour; its outer bar is the chain's HPD interval, its dot the quantile at the middle level, and with quartiles its inner bar joins the quantiles at the second and fourth levels |
| Forest.ChainTrees | arviz/plots/forestplot.py:177-204 | one tree per chain, in chain order |
| Forest.PairMarks | arviz/plots/forestplot.py:164-213 | every (variable, trace) pair yields a label `model + ' ' + variable`; it fails iff the trace has the variable and either no colour or fewer columns of it than chains; the error is IndexingError when several chains meet a single column, else IndexError for the missing colour, else IndexError past the last column |
| Forest.ChainQuantiles | arviz/plots/forestplot.py:179-189 | the imperative quantile-and-substitute step yields the chain's quantiles as specified |
| Forest.DrawChain | arviz/plots/forestplot.py:177-204 | one pass of the chain loop: it fails iff chain j's column lookup fails (IndexingError on a single column among several chains, IndexError past the last column) or the trace has no colour (IndexError); otherwise its quantiles, its y coordinate and its tree |
| Forest.DrawChains | arviz/plots/forestplot.py:174-204 | the chain loop fails iff the trace has no colour or the variable has fewer columns than chains, with the error of the first chain that raises; otherwise it yields every chain's tree, all quantiles in order, and the last chain's y |
| Forest.DrawPair | arviz/plots/forestplot.py:164-213 | the loop body for one (variable, trace) pair computes exactly `PairMarks` |
| Forest.PairsUpTo | arviz/plots/forestplot.py:164-213 | the traces loop for one variable yields one entry per trace |
| Forest.PairsUpToSpec | arviz/plots/forestplot.py:164-213 | the loop succeeds iff every pair succeeds, and then entry h is pair h's marks |
| Forest.PairsUpToFirstError | arviz/plots/forestplot.py:164-213 | otherwise it fails with the error of the first failing pair |
| Forest.PairsUpToStops | arviz/plots/forestplot.py:164-213 | after the first error later traces change nothing |
| Forest.RowsUpTo | arviz/plots/forestplot.py:163-213 | the variables loop yields one row per variable, each with one entry per trace |
| Forest.RowsUpToStops | arviz/plots/forestplot.py:163-213 | after the first error later variables change nothing |
| Forest.RowsUpToOkIff | arviz/plots/forestplot.py:163-213 | the layout succeeds iff every (variable, trace) pair succeeds |
| Forest.RowsUpToContents | arviz/plots/forestplot.py:163-213 | the entry for variable vi and trace h is that pair's marks |
| Forest.DrawVariable | arviz/plots/forestplot.py:164-213 | the imperative traces loop computes exactly `PairsUpTo` over all traces |
| Forest.Bands | arviz/plots/forestplot.py:161-223 | one shaded band per variable |
| Forest.BandsTile | arviz/plots/forestplot.py:215-223 | the bands tile the y axis: the first starts at 0.5, each starts where the previous ended, each ends one spacing and a half below its variable's last row, and the alpha alternates 0.05, 0 |
| Forest.BandsSnoc | arviz/plots/forestplot.py:215-223 | adding a variable appends exactly one band, from the previous bottom to the new one |
| Forest.ShadeVariable | arviz/plots/forestplot.py:215-223 | one `axhspan` step extends the bands as above and carries `var_old` forward |
| Forest.RowCountIsProduct | arviz/plots/forestplot.py:169-213 | the row counter ends at (number of variables) × (number of traces) |
| Forest.LayoutOf | arviz/plots/forestplot.py:158-223 | a successful layout has one row group per variable |
| Forest.DrawRow | arviz/plots/forestplot.py:163-223 | one pass of the variables loop extends the rows, the bands (only with several traces) and `var_old` exactly as specified |
| Forest.LayoutRows | arviz/plots/forestplot.py:158-223 | the nested loops compute exactly `LayoutOf`: rows, bands and the row count |
| Forest.Normalise | arviz/plots/forestplot.py:78-113 | models, colours, levels (`Forest.Levels`), chain counts and diagnostic flags as specified; the model-name error comes before the chain-count error |
| Forest.LabelsOnePerRow | arviz/plots/forestplot.py:163-246 | there is one label per row; the label of variable vi and trace h sits at row vi·ntraces+h and reads `model + ' ' + variable`; its tick is at minus that row |
| Forest.FirstChainOnTick | arviz/plots/forestplot.py:171-198 | for a trace having the variable, the first chain's tree lies exactly on the row's tick |
| Forest.LongestLabel | arviz/plots/forestplot.py:229 | the left margin uses the length of a longest label |
| Forest.PaddedRangeCovers | arviz/plots/forestplot.py:240-242 | the default x range covers every quantile drawn |
| Forest.Ticks | arviz/plots/forestplot.py:245 | tick l is at -l, one tick per label |
| Forest.TitleOf | arviz/plots/forestplot.py:249-254 | no `main` gives the credible-interval title at (1-alpha)·100 percent; a text is used as given; a false `main` gives an empty title |
| Forest.Finish | arviz/plots/forestplot.py:225-276 | fails iff there is no label (max of empty) or no quantile (min of empty); otherwise the labels, left margin, y range, ticks, x range (given, or covering every quantile), title, x label and reference line as specified |
| Forest.Forestplot | arviz/plots/forestplot.py:78-279 | the whole function: a normalisation error, else a layout error, else exactly the finished figure of the computed layout |
| Kde.Slice | arviz/plots/kdeplot.py:97 | a forward slice with Python's clipping agrees with the plain slice when its bounds are in range and is never longer than its input |
| Kde.PadWidth | arviz/plots/kdeplot.py:95 | the padding is the smaller of twice the kernel width and 200 bins |
| Kde.LeftMirror | arviz/plots/kdeplot.py:96 | the left pad mirrors bins npad..1, so it has npad bins, or 199 at full padding |
| Kde.RightMirror | arviz/plots/kdeplot.py:96 | the right pad mirrors bins 199.., with npad-1 bins |
| Kde.PaddedLength | arviz/plots/kdeplot.py:96 | the length of the padded grid, which is at least npad + 200 |
| Kde.WindowIsHistogram | arviz/plots/kdeplot.py:96-97 | below full padding, the window `[npad, npad+200)` of the padded grid is exactly the histogram |
| Kde.WindowAtFullPadding | arviz/plots/kdeplot.py:95-97 | at full padding the window is the histogram shifted by one bin, its last bin repeated |
| Kde.FullPaddingShiftsWindow | arviz/plots/kdeplot.py:95-97 | so at full padding the window differs from the histogram whenever its first two bins differ |
| Kde.Finite | arviz/plots/kdeplot.py:78-79 | keeps exactly the finite samples, and all of them, in order, when every sample is finite |
| Kde.FiniteKeepsOrder | arviz/plots/kdeplot.py:79 | filtering a concatenation filters each part and concatenates: order and repeats are kept |
| Kde.Shifted | arviz/plots/kdeplot.py:86 | subtracts the minimum from every sample |
| Kde.Spread | arviz/plots/kdeplot.py:86-88 | the entropy times `bw`, or 0 when that is not finite |
| Kde.FastKde | arviz/plots/kdeplot.py:59-103 | ValueError with numpy's message iff no sample is finite; otherwise it fails iff the Gaussian window or the convolution raises, always for a negative kernel width; on success the bounds are the least and greatest finite samples and the density is the 200 smoothed values past the left padding |
| Kde.KdeWindowAligned | arviz/plots/kdeplot.py:89-97 | below full padding, the 200 positions of the smoothed grid the density is read from hold exactly the histogram in the padded input |
| Kde.Linspace | arviz/plots/kdeplot.py:43 | n points from `lower` to `upper` |
| Kde.LinspaceBetween | arviz/plots/kdeplot.py:43 | the grid never decreases and stays within its ends |
| Kde.LinspaceSorted | arviz/plots/kdeplot.py:43 | every pair of grid points is ordered as its indices |
| Kde.KdePlot | arviz/plots/kdeplot.py:36-56 | fails iff the estimate fails; plots grid against density with the density's axis starting at 0, or the two swapped when rotated |
| Kde.RotationSwaps | arviz/plots/kdeplot.py:44-54 | rotating exchanges the coordinates and the axis pinned at 0 |
| Density.ParsePointEstimate | arviz/plots/densityplot.py:68-69 | 'mean', 'median' and None are accepted as themselves; anything else is a ValueError with the source's message |
| Density.CutIndices | arviz/plots/densityplot.py:153 | the mask's positions are in range, increasing, and inside the interval |
| Density.CutKeepsExactlyTheInterval | arviz/plots/densityplot.py:153 | a position is kept iff its point lies in the interval |
| Density.Select | arviz/plots/densityplot.py:155-158 | `x[cut]` reads x at each kept position, in order |
| Density.BinEdges | arviz/plots/densityplot.py:170 | `range(xmin, xmax + 2)` is xmin, xmin+1, …, xmax+1 |
| Density.CutGrid | arviz/plots/densityplot.py:151-158 | the cut curve keeps the whole grid and density; IndexError iff the cut keeps nothing |
| Density.KdeCut | arviz/plots/densityplot.py:149-158 | the float branch fails as `fast_kde` does, else with IndexError iff no point of the linspace grid lies in the HPD interval; the drawn curve has `hpd_lo <= xmin <= xmax <= hpd_hi`, every kept point between the ends, and every grid point of the interval kept |
| Density.CutEmptyIff | arviz/plots/densityplot.py:153-155 | the cut keeps nothing iff no grid point lies in the interval |
| Density.CutOfSorted | arviz/plots/densityplot.py:151-156 | on a non-decreasing grid the first and last kept points bound every kept point, and no grid point of the interval is dropped |
| Density.KeptWithin | arviz/plots/densityplot.py:151-156 | the kept points start and end inside the interval and include every grid point of it |
| Density.CutWithinHpd | arviz/plots/densityplot.py:151-156 | `hpd_lo <= xmin <= xmax <= hpd_hi`, every kept point lies between the ends, and every grid point in the interval is kept |
| Density.HistCut | arviz/plots/densityplot.py:168-170 | the histogram's ends are the HPD bounds and its bins run in steps of 1 from the lower bound to one past the upper |
| Density.DHelper | arviz/plots/densityplot.py:127-191 | the KDE branch exactly for float columns with its failures; markers iff `hpd_markers` is non-empty, at the ends; the mean, the median or no point estimate as requested; title, colour, outline, shade |
| Density.TraceMarks | arviz/plots/densityplot.py:110-115 | a trace draws on a variable's panel iff it has that column; the colour list being too short raises IndexError; a tabular trace never raises KeyError |
| Density.Outcomes | arviz/plots/densityplot.py:111-115 | one outcome per trace, in trace order |
| Density.GatherOkIff | arviz/plots/densityplot.py:111-115 | the traces loop succeeds iff no trace fails |
| Density.GatherFirstError | arviz/plots/densityplot.py:111-115 | the loop fails with the first failing trace's error |
| Density.GatherStops | arviz/plots/densityplot.py:111-115 | after the first error later traces change nothing |
| Density.GatherSources | arviz/plots/densityplot.py:111-115 | each drawing gathered is a trace's own drawing, in trace order |
| Density.GatherComplete | arviz/plots/densityplot.py:111-115 | every drawing made is gathered |
| Density.PanelSources | arviz/plots/densityplot.py:110-115 | a panel holds exactly one drawing per trace having the variable, in trace order, titled by the variable in the trace's colour |
| Density.PanelFirstError | arviz/plots/densityplot.py:110-115 | a panel fails with the error of the first trace that raises |
| Density.PanelsUpTo | arviz/plots/densityplot.py:107-115 | one panel per variable |
| Density.PanelsUpToStops | arviz/plots/densityplot.py:110-115 | after the first error later variables change nothing |
| Density.PanelsAreVariables | arviz/plots/densityplot.py:107-115 | panel vi is the panel of variable vi |
| Density.DrawTrace | arviz/plots/densityplot.py:112-115 | one pass of the inner loop computes exactly the trace's outcome |
| Density.DrawPanel | arviz/plots/densityplot.py:111-115 | the inner loop computes exactly the panel |
| Density.DrawPanels | arviz/plots/densityplot.py:110-115 | the nested loops compute exactly one panel per variable, or the first error |
| Density.Legend | arviz/plots/densityplot.py:117-120 | a legend only with several traces, one entry per model in its colour; IndexError iff there are fewer colours than models |
| Density.Prepare | arviz/plots/densityplot.py:68-87 | the point-estimate error comes before the model-name error; otherwise the models, colours and point estimate as normalised |
| Density.Densityplot | arviz/plots/densityplot.py:8-124 | the whole function: argument errors, then ValueError without variables (no subplot rows), then the first panel or legend error, else the figure with its size, panels and legend |
| Pair.ColumnCells | arviz/plots/pairplot.py:97-100 | column i has the panels of rows i to n-2 |
| Pair.TriangleSize | arviz/plots/pairplot.py:94-100 | the first m columns hold (n-1) + … + (n-m) panels |
| Pair.PanelCount | arviz/plots/pairplot.py:92-100 | the grid holds n(n-1)/2 panels |
| Pair.TriangleCells | arviz/plots/pairplot.py:94-100 | every panel lies in the lower triangle (column ≤ row ≤ n-2) and is the loops' panel at its cell |
| Pair.TriangleOrdered | arviz/plots/pairplot.py:94-100 | panels come column by column, top to bottom, so no cell is used twice |
| Pair.TriangleComplete | arviz/plots/pairplot.py:94-100 | every cell of the lower triangle gets its panel |
| Pair.PairsExactlyOnce | arviz/plots/pairplot.py:94-105 | every panel plots variable a against variable b for some a < b, no pair twice, and every such pair is plotted |
| Pair.LabelPlacement | arviz/plots/pairplot.py:111-118 | the x label (variable i) exactly on the bottom row, the y label (variable j+1) exactly in the first column, x tick labels kept only on the bottom-left panel |
| Pair.PairFigsize | arviz/plots/pairplot.py:65-66 | a given size is kept; the default is 8 + n in both directions |
| Pair.DrawColumn | arviz/plots/pairplot.py:97-120 | the inner loop builds exactly the panels of column i, labels included |
| Pair.Pairplot | arviz/plots/pairplot.py:48-123 | kind error first, then the Exception for fewer than two variables; then UnboundLocalError iff a text size was given and the first panel drawn reads the marker size (a scatter or the divergences); otherwise with an axes and two variables the one panel, with neither grid nor axes the full triangle, else nothing |
| Joint.AxesLayout | arviz/plots/jointplot.py:106-113 | the three axes lie inside the figure and do not overlap; the top marginal spans the joint's width and the right marginal its height, each one gap beyond it |
| Joint.MarginalOf | arviz/plots/jointplot.py:88-99 | integer samples get a histogram on `get_bins`, others a KDE with the default bandwidth, which fails iff `fast_kde` fails (no finite sample, or the smoothing raises) |
| Joint.MarginalRotation | arviz/plots/jointplot.py:88-99 | the right marginal of the same samples is the top one turned: the same failure, the same bins laid horizontally, or the curve's coordinates exchanged |
| Joint.Jointplot | arviz/plots/jointplot.py:48-104 | TypeError without varnames, Exception unless exactly two, KeyError for a missing x then y, the kind error; then it fails iff a marginal fails; otherwise the (6, 6) default size, labels x then y, the three rectangles, the marginals, and the limits copied from the joint axes as drawn with the parsed kind |

## Left out

- Drawing and styling are not modelled, since they do not change the layout: matplotlib calls, the values of `_scale_text`'s text and marker sizes (only whether `ms` is bound is modelled), line widths, spines, tick styling and `tight_layout`.
- `plot_kwargs`, `joint_kwargs`, `marginal_kwargs` and `kwargs_divergences` pass straight through to matplotlib, so they are not modelled.
- `trace_to_dataframe` and `skip_first` are not modelled: traces arrive as tables of samples.
- `get_stats` is not modelled: pairplot's divergence overlay is only a flag on each panel.
- `get_varnames` is not modelled: pairplot takes the already resolved variable names, so its lookups `trace[varnames[i]]` cannot fail.
- The `gs` argument of forestplot is not modelled: the model always builds its own grid.
- The n_eff axis ticks are not modelled. They come from `round(min(neffs), -1)`, which is floating-point rounding of helper output. The R-hat and n_eff points are modelled (`Forest.PairMarks`, R-hat clipped at 2), as are the diagnostic columns and their bands.
- The automatic `gridsize = int(len ** 0.35)` is not modelled: it is a float computation that only sizes the hexagons.
- `fast_kde`'s normalisation constant is not modelled: it is floating-point arithmetic. The kernel width, the histogram, and the Gaussian window with the convolution are parameters.
- Kde.FastKde: beyond a negative kernel width, which inputs make scipy's window or convolution raise (for example an empty window) is left to the smoothing parameter, and all such errors are taken to be ValueError.
- Forest.Levels: pandas raises for quantile levels outside [0, 1], that is for alpha below 0 or above 2. The quantile helper is a parameter and is total, so this error is not modelled.
- The title's `{:.0f}%` formatting is not modelled: `Forest.TitleOf` keeps the percentage as a number.
- Reals stand in for doubles throughout. NaN and the infinities appear only as samples, where `fast_kde` filters them out.
- Density.Densityplot: a zero-row `plt.subplots` call raises matplotlib's own ValueError. Only its kind and message are modelled, not the rest of matplotlib.
- Joint.Jointplot: the joint axes' limits are chosen by matplotlib's autoscaling of the drawn scatter or hexbin, so they are a parameter of the samples and the kind. The model only states that the marginals copy them.
