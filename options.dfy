/** The argument normalisation that forestplot and densityplot share, written
    out identically in both (forestplot.py:78-110, densityplot.py:73-100):
    default model names, the colour list, and the list of variables to plot;
    and the `kind` check of pairplot and jointplot. */
module Options {
  import opened Results
  import opened Seqs
  import opened Samples

  // ---------------------------------------------------------------------------
  // Model names

  /** `'m_{}'.format(i)`. */
  function ModelName(i: nat): string
  {
    "m_" + Decimal(i)
  }

  /** The `models` argument after normalisation. Omitted names default to
      `m_0 .. m_{k-1}` for k > 1 traces and to `['']` otherwise (also for no
      traces at all); explicit names must be one per trace. */
  function NormaliseModels(models: Option<seq<string>>, ntraces: nat): (r: Result<seq<string>>)
    ensures models.None? && ntraces > 1 ==>
              r.Ok? && |r.value| == ntraces
              && forall i :: 0 <= i < ntraces ==> r.value[i] == ModelName(i)
    ensures models.None? && ntraces <= 1 ==> r == Ok([""])
    ensures models.Some? ==> (r.Ok? <==> |models.value| == ntraces)
    ensures models.Some? && r.Ok? ==> r.value == models.value
    ensures r.Err? ==> r.error.ValueError?
  {
    match models
    case None =>
      if ntraces > 1 then Ok(seq(ntraces, i requires 0 <= i => ModelName(i))) else Ok([""])
    case Some(names) =>
      if |names| != ntraces then
        Err(ValueError("The number of names for the models does not match the number of models"))
      else Ok(names)
  }

  /** Whenever normalisation succeeds there is one name per trace, except that
      a single name `''` stands for an empty list of traces. */
  lemma ModelsMatchTraces(models: Option<seq<string>>, ntraces: nat)
    requires NormaliseModels(models, ntraces).Ok?
    ensures |NormaliseModels(models, ntraces).value| == if ntraces == 0 && models.None? then 1 else ntraces
  {
  }

  /** The default names tell the models apart. */
  lemma {:induction false} DefaultModelNamesDistinct(ntraces: nat)
    requires ntraces > 1
    ensures NoDuplicates(NormaliseModels(None, ntraces).value)
  {
    var names := NormaliseModels(None, ntraces).value;
    forall i, j | 0 <= i < j < |names| ensures names[i] != names[j] {
      if names[i] == names[j] {
        assert ModelName(i) == ModelName(j);
        assert ModelName(i)[2..] == Decimal(i) && ModelName(j)[2..] == Decimal(j);
        DecimalInjective(i, j);
      }
    }
  }

  // ---------------------------------------------------------------------------
  // Colours

  /** The `colors` argument: a single string or a list of colours. */
  datatype Colors = Named(name: string) | Listed(colors: seq<string>)

  /** The colour `C` followed by i mod 10: the i-th colour of matplotlib's default cycle. */
  function CycleColor(i: nat): string
  {
    "C" + Decimal(i % 10)
  }

  /** One colour per model: `'cycle'` walks matplotlib's ten-colour cycle, any
      other string is used for every model, a list is taken as it is. */
  function ExpandColors(colors: Colors, nmodels: nat): (r: seq<string>)
    ensures colors.Listed? ==> r == colors.colors
    ensures colors.Named? ==> |r| == nmodels
    ensures colors == Named("cycle") ==> forall i :: 0 <= i < nmodels ==> r[i] == CycleColor(i)
    ensures colors.Named? && colors.name != "cycle" ==> forall i :: 0 <= i < nmodels ==> r[i] == colors.name
  {
    match colors
    case Named(name) =>
      if name == "cycle" then seq(nmodels, i requires 0 <= i => CycleColor(i))
      else seq(nmodels, _ => name)
    case Listed(cs) => cs
  }

  /** The cycle has period ten and its ten colours are all different: two
      models get the same colour exactly when their indices agree modulo 10. */
  lemma CycleColorsRepeatEveryTen(nmodels: nat, i: nat, j: nat)
    requires i < nmodels && j < nmodels
    ensures ExpandColors(Named("cycle"), nmodels)[i] == ExpandColors(Named("cycle"), nmodels)[j]
            <==> i % 10 == j % 10
  {
    var cs := ExpandColors(Named("cycle"), nmodels);
    if cs[i] == cs[j] {
      assert cs[i][1..] == Decimal(i % 10) && cs[j][1..] == Decimal(j % 10);
      DecimalInjective(i % 10, j % 10);
    }
  }

  // ---------------------------------------------------------------------------
  // The variables to plot

  /** `np.unique` over strings. */
  function UniqueNames(s: seq<Name>): (r: seq<Name>)
    ensures StrictlyIncreasing(r, StrLess) && NoDuplicates(r)
    ensures forall x :: x in r <==> x in s
  {
    StrLessIsStrictTotalOrder();
    var r := SortedUnique(s, StrLess);
    IncreasingHasNoDuplicates(r, StrLess);
    r
  }

  /** `expand_variable_names(tr, varnames)` for every trace. */
  function Expanded(traces: seq<Trace>, varnames: seq<Name>, expand: (Trace, seq<Name>) -> seq<Name>): (es: seq<seq<Name>>)
    ensures |es| == |traces|
    ensures forall h :: 0 <= h < |traces| ==> es[h] == expand(traces[h], varnames)
  {
    seq(|traces|, h requires 0 <= h < |traces| => expand(traces[h], varnames))
  }

  /** The variable list forestplot and densityplot plot: without `varnames`,
      every column of every trace in order of first appearance; with them,
      the sorted distinct expansions. */
  function Varnames(traces: seq<Trace>, varnames: Option<seq<Name>>, expand: (Trace, seq<Name>) -> seq<Name>): seq<Name>
  {
    match varnames
    case None => Dedup(Flat(ColumnsOf(traces)))
    case Some(vs) => UniqueNames(Flat(Expanded(traces, vs, expand)))
  }

  /** Without `varnames`: no name twice, a name is listed iff some trace has
      that column, and names come in the order in which the traces first
      show them. */
  lemma DefaultVarnamesAreFirstSeenUnion(traces: seq<Trace>, expand: (Trace, seq<Name>) -> seq<Name>)
    ensures NoDuplicates(Varnames(traces, None, expand))
    ensures forall v :: v in Varnames(traces, None, expand) <==>
              exists h :: 0 <= h < |traces| && v in traces[h].columns
    ensures forall i, j :: 0 <= i < j < |Varnames(traces, None, expand)| ==>
              FirstIndex(Flat(ColumnsOf(traces)), Varnames(traces, None, expand)[i])
              < FirstIndex(Flat(ColumnsOf(traces)), Varnames(traces, None, expand)[j])
  {
    var all := Flat(ColumnsOf(traces));
    forall v ensures v in all <==> exists h :: 0 <= h < |traces| && v in traces[h].columns {
      FlatMember(ColumnsOf(traces), v);
    }
    forall i, j | 0 <= i < j < |Dedup(all)|
      ensures FirstIndex(all, Dedup(all)[i]) < FirstIndex(all, Dedup(all)[j])
    {
      DedupFirstSeenOrder(all, i, j);
    }
  }

  /** With `varnames`: sorted, no name twice, and a name is listed iff some
      trace's expansion yields it. */
  lemma GivenVarnamesAreSortedUnion(traces: seq<Trace>, vs: seq<Name>, expand: (Trace, seq<Name>) -> seq<Name>)
    ensures StrictlyIncreasing(Varnames(traces, Some(vs), expand), StrLess)
    ensures forall v :: v in Varnames(traces, Some(vs), expand) <==>
              exists h :: 0 <= h < |traces| && v in expand(traces[h], vs)
  {
    forall v ensures v in Flat(Expanded(traces, vs, expand)) <==>
                     exists h :: 0 <= h < |traces| && v in expand(traces[h], vs) {
      FlatMember(Expanded(traces, vs, expand), v);
    }
  }

  /** The append loop over the traces' columns (`if v not in varnames:
      varnames.append(v)`), or the `extend` loop over the expansions followed by
      `np.unique`. */
  method SelectVarnames(traces: seq<Trace>, varnames: Option<seq<Name>>, expand: (Trace, seq<Name>) -> seq<Name>)
    returns (names: seq<Name>)
    ensures names == Varnames(traces, varnames, expand)
  {
    if varnames.None? {
      names := [];
      ghost var seen: seq<Name> := [];
      var h := 0;
      while h < |traces|
        invariant 0 <= h <= |traces|
        invariant seen == Flat(ColumnsOf(traces)[..h])
        invariant names == Dedup(seen)
      {
        var cols := traces[h].columns;
        var k := 0;
        assert seen + cols[..0] == seen;
        while k < |cols|
          invariant 0 <= k <= |cols|
          invariant names == Dedup(seen + cols[..k])
        {
          var v := cols[k];
          assert seen + cols[..k + 1] == (seen + cols[..k]) + [v];
          DedupSnoc(seen + cols[..k], v);
          if v !in names {
            names := names + [v];
          }
          k := k + 1;
        }
        assert cols[..k] == cols;
        FlatSnoc(ColumnsOf(traces), h);
        seen := seen + cols;
        h := h + 1;
      }
      assert ColumnsOf(traces)[..h] == ColumnsOf(traces);
    } else {
      var vTmp: seq<Name> := [];
      ghost var es := Expanded(traces, varnames.value, expand);
      var h := 0;
      while h < |traces|
        invariant 0 <= h <= |traces|
        invariant vTmp == Flat(es[..h])
      {
        FlatSnoc(es, h);
        vTmp := vTmp + expand(traces[h], varnames.value);
        h := h + 1;
      }
      assert es[..h] == es;
      names := UniqueNames(vTmp);
    }
  }

  // ---------------------------------------------------------------------------
  // The joint plot kind

  /** The `kind` of pairplot's and jointplot's joint panels. */
  datatype PlotKind = Scatter | Hexbin

  /** `kind` must be 'scatter' or 'hexbin'. */
  function ParseKind(kind: string): (r: Result<PlotKind>)
    ensures r == Ok(Scatter) <==> kind == "scatter"
    ensures r == Ok(Hexbin) <==> kind == "hexbin"
    ensures r.Err? <==> kind != "scatter" && kind != "hexbin"
    ensures r.Err? ==> r.error == ValueError("Plot type " + kind + " not recognized.")
  {
    if kind == "scatter" then Ok(Scatter)
    else if kind == "hexbin" then Ok(Hexbin)
    else Err(ValueError("Plot type " + kind + " not recognized."))
  }

  /** Without a figure size: 6 wide and 2 per variable high. */
  function DefaultFigsize(figsize: Option<(real, real)>, nvars: nat): (r: (real, real))
    ensures figsize.Some? ==> r == figsize.value
    ensures figsize.None? ==> r.0 == 6.0 && r.1 == 2.0 * nvars as real
  {
    if figsize.Some? then figsize.value else (6.0, (nvars * 2) as real)
  }
}
