/** Posterior samples as the plotting functions receive them once
    `trace_to_dataframe` has turned a trace into a table. */
module Samples {
  import opened Seqs

  type Name = string

  /** A double-precision sample: a finite value, NaN or an infinity. */
  datatype Float = Finite(value: real) | NaN | PosInf | NegInf

  /** numpy's dtype kind of a column: 'f', 'i', 'u' or 'b'. */
  datatype Kind = FloatKind | IntKind | UIntKind | BoolKind

  /** One column of the table. */
  datatype Column = Column(kind: Kind, values: seq<Float>)

  /** A table of samples. With the chains kept apart (`combined=False`) each
      variable's label occurs once per chain in `columns`; with them combined it
      occurs once. `data` holds the samples under each label. */
  datatype Trace = Trace(columns: seq<Name>, data: map<Name, Column>)

  /** Every label of the table has its samples. */
  predicate Tabular(t: Trace)
  {
    forall v :: v in t.columns ==> v in t.data
  }

  /** pandas' largest label count: how often the most frequent label occurs,
      which is the number of chains when the chains are kept apart. */
  function ChainCount(t: Trace): (n: nat)
    ensures forall v :: multiset(t.columns)[v] <= n
    ensures |t.columns| > 0 ==> exists i :: 0 <= i < |t.columns| && multiset(t.columns)[t.columns[i]] == n
    ensures |t.columns| > 0 ==> n >= 1
  {
    MaxMultiplicity(t.columns)
  }

  /** The column labels of every trace, in order. */
  function ColumnsOf(traces: seq<Trace>): (cs: seq<seq<Name>>)
    ensures |cs| == |traces| && forall h :: 0 <= h < |traces| ==> cs[h] == traces[h].columns
  {
    seq(|traces|, h requires 0 <= h < |traces| => traces[h].columns)
  }
}
