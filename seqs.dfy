/** Sequence helpers shared by the plotting modules: concatenation, first
    occurrence, the sorted de-duplication that `np.unique` performs, minimum and
    maximum, the most frequent element's count, and decimal rendering of
    naturals (`str(i)`). */
module Seqs {

  // ---------------------------------------------------------------------------
  // Concatenation and first occurrence

  /** All the inner sequences, one after another. */
  function Flat<T>(ss: seq<seq<T>>): seq<T>
  {
    if ss == [] then [] else Flat(ss[..|ss| - 1]) + ss[|ss| - 1]
  }

  lemma FlatSnoc<T>(ss: seq<seq<T>>, k: nat)
    requires k < |ss|
    ensures Flat(ss[..k + 1]) == Flat(ss[..k]) + ss[k]
  {
    assert ss[..k + 1][..k] == ss[..k];
  }

  /** `x` occurs in the concatenation exactly when it occurs in one of the parts. */
  lemma {:induction false} FlatMember<T>(ss: seq<seq<T>>, x: T)
    ensures x in Flat(ss) <==> exists i :: 0 <= i < |ss| && x in ss[i]
  {
    if ss != [] {
      var init := ss[..|ss| - 1];
      FlatMember(init, x);
      assert forall i :: 0 <= i < |init| ==> init[i] == ss[i];
      if x in Flat(ss) && x !in ss[|ss| - 1] {
        assert x in Flat(init);
        var i :| 0 <= i < |init| && x in init[i];
        assert x in ss[i];
      }
    }
  }

  /** Parts of equal length n flatten to n per part. */
  lemma {:induction false} FlatUniformLength<T>(ss: seq<seq<T>>, n: nat)
    requires forall a :: 0 <= a < |ss| ==> |ss[a]| == n
    ensures |Flat(ss)| == |ss| * n
  {
    if ss != [] {
      FlatUniformLength(ss[..|ss| - 1], n);
      assert |ss| * n == (|ss| - 1) * n + n;
    }
  }

  /** ... and element k of part i lands at `i * n + k`. */
  lemma {:induction false} FlatUniformIndex<T>(ss: seq<seq<T>>, n: nat, i: nat, k: nat)
    requires forall a :: 0 <= a < |ss| ==> |ss[a]| == n
    requires i < |ss| && k < n
    ensures i * n + k < |Flat(ss)| && Flat(ss)[i * n + k] == ss[i][k]
  {
    var init := ss[..|ss| - 1];
    FlatUniformLength(init, n);
    FlatUniformLength(ss, n);
    if i < |init| {
      FlatUniformIndex(init, n, i, k);
      MulMonotone(i + 1, |init|, n);
      assert (i + 1) * n == i * n + n;
    } else {
      assert i * n == |Flat(init)|;
    }
  }

  lemma {:induction false} MulMonotone(a: nat, b: nat, n: nat)
    requires a <= b
    ensures a * n <= b * n
  {
    if a < b {
      MulMonotone(a, b - 1, n);
      assert b * n == (b - 1) * n + n;
    }
  }

  /** No element occurs twice. */
  predicate NoDuplicates<T(==)>(s: seq<T>)
  {
    forall i, j :: 0 <= i < j < |s| ==> s[i] != s[j]
  }

  /** How often `x` occurs in `s`: the multiplicity of `x` in `multiset(s)`. */
  function Count<T(==)>(s: seq<T>, x: T): nat
  {
    if s == [] then 0
    else (if s[0] == x then 1 else 0) + Count(s[1..], x)
  }

  /** An element occurs when it is counted at least once. */
  lemma {:induction false} CountPositive<T>(s: seq<T>, x: T)
    ensures Count(s, x) > 0 <==> x in s
  {
    if s != [] {
      CountPositive(s[1..], x);
      assert x in s <==> s[0] == x || x in s[1..];
    }
  }

  /** The count is the multiset's multiplicity. */
  lemma {:induction false} CountIsMultiplicity<T>(s: seq<T>, x: T)
    ensures Count(s, x) == multiset(s)[x]
  {
    if s != [] {
      CountIsMultiplicity(s[1..], x);
      assert s == [s[0]] + s[1..];
    }
  }

  /** The index of the first occurrence of `x` in `s`. */
  function FirstIndex<T(==)>(s: seq<T>, x: T): (i: nat)
    requires x in s
    ensures i < |s| && s[i] == x && x !in s[..i]
  {
    if s[0] == x then 0
    else
      var k := FirstIndex(s[1..], x);
      assert s[..k + 1] == [s[0]] + s[1..][..k];
      k + 1
  }

  /** The three facts in FirstIndex's contract determine the index. */
  lemma FirstIndexUnique<T>(s: seq<T>, x: T, i: nat)
    requires i < |s| && s[i] == x && x !in s[..i]
    ensures FirstIndex(s, x) == i
  {
    var f := FirstIndex(s, x);
    assert forall k :: 0 <= k < i ==> s[..i][k] == s[k];
    assert forall k :: 0 <= k < f ==> s[..f][k] == s[k];
  }

  /** Appending never moves the first occurrence of something already present. */
  lemma FirstIndexSnoc<T>(s: seq<T>, y: T, x: T)
    requires x in s
    ensures FirstIndex(s + [y], x) == FirstIndex(s, x)
  {
    var f := FirstIndex(s, x);
    assert (s + [y])[..f] == s[..f];
    FirstIndexUnique(s + [y], x, f);
  }

  /** A new element first occurs where it is appended. */
  lemma FirstIndexAppended<T>(s: seq<T>, x: T)
    requires x !in s
    ensures FirstIndex(s + [x], x) == |s|
  {
    assert (s + [x])[..|s|] == s;
    FirstIndexUnique(s + [x], x, |s|);
  }

  /** The elements of `s` in order of first occurrence, each once: what a loop
      that appends every element not yet collected produces. */
  function Dedup<T(==,!new)>(s: seq<T>): (r: seq<T>)
    ensures NoDuplicates(r)
    ensures forall x :: x in r <==> x in s
  {
    if s == [] then []
    else
      var d := Dedup(s[..|s| - 1]);
      assert forall x :: x in s <==> x in s[..|s| - 1] || x == s[|s| - 1] by {
        assert s == s[..|s| - 1] + [s[|s| - 1]];
      }
      if s[|s| - 1] in d then d else d + [s[|s| - 1]]
  }

  /** Collecting one more element: it is appended exactly when it is new. */
  lemma DedupSnoc<T(!new)>(s: seq<T>, x: T)
    ensures Dedup(s + [x]) == if x in Dedup(s) then Dedup(s) else Dedup(s) + [x]
  {
    assert (s + [x])[..|s|] == s;
  }

  /** Dedup keeps the order of first occurrence: an element listed earlier
      occurred earlier in `s`. */
  lemma {:induction false} DedupFirstSeenOrder<T(!new)>(s: seq<T>, i: nat, j: nat)
    requires i < j < |Dedup(s)|
    ensures Dedup(s)[i] in s && Dedup(s)[j] in s
    ensures FirstIndex(s, Dedup(s)[i]) < FirstIndex(s, Dedup(s)[j])
  {
    var init := s[..|s| - 1];
    var last := s[|s| - 1];
    assert s == init + [last];
    var d := Dedup(init);
    var a, b := Dedup(s)[i], Dedup(s)[j];
    if j < |d| {
      assert a == d[i] && b == d[j];
      DedupFirstSeenOrder(init, i, j);
      FirstIndexSnoc(init, last, a);
      FirstIndexSnoc(init, last, b);
    } else {
      assert last !in d && b == last && a == d[i];
      assert last !in init;
      FirstIndexAppended(init, last);
      FirstIndexSnoc(init, last, a);
    }
  }

  // ---------------------------------------------------------------------------
  // Orders and np.unique

  /** `s` is strictly increasing under `lt`. */
  predicate StrictlyIncreasing<T>(s: seq<T>, lt: (T, T) -> bool)
  {
    forall i, j :: 0 <= i < j < |s| ==> lt(s[i], s[j])
  }

  /** `lt` is irreflexive, transitive and total on distinct values. */
  ghost predicate StrictTotalOrder<T(!new)>(lt: (T, T) -> bool)
  {
    && (forall a :: !lt(a, a))
    && (forall a, b, c :: lt(a, b) && lt(b, c) ==> lt(a, c))
    && (forall a, b :: a != b ==> lt(a, b) || lt(b, a))
  }

  lemma IncreasingHasNoDuplicates<T(!new)>(s: seq<T>, lt: (T, T) -> bool)
    requires StrictTotalOrder(lt) && StrictlyIncreasing(s, lt)
    ensures NoDuplicates(s)
  {
    forall i, j | 0 <= i < j < |s| ensures s[i] != s[j] {
      assert lt(s[i], s[j]);
    }
  }

  /** Inserts `x` into a strictly increasing sequence unless it is there already. */
  function InsertUnique<T(==,!new)>(x: T, s: seq<T>, lt: (T, T) -> bool): (r: seq<T>)
    requires StrictTotalOrder(lt) && StrictlyIncreasing(s, lt)
    ensures StrictlyIncreasing(r, lt)
    ensures forall y :: y in r <==> y == x || y in s
    ensures |r| <= |s| + 1
  {
    if s == [] then [x]
    else if x == s[0] then s
    else if lt(x, s[0]) then
      assert forall j :: 0 < j < |s| ==> lt(s[0], s[j]);
      [x] + s
    else
      var rest := InsertUnique(x, s[1..], lt);
      assert lt(s[0], x);
      assert forall y :: y in rest ==> lt(s[0], y) by {
        forall y | y in rest ensures lt(s[0], y) {
          if y != x {
            var j :| 0 <= j < |s[1..]| && s[1..][j] == y;
            assert s[j + 1] == y;
          }
        }
      }
      [s[0]] + rest
  }

  /** What `np.unique` returns: the distinct elements of `s`, sorted by `lt`. */
  function SortedUnique<T(==,!new)>(s: seq<T>, lt: (T, T) -> bool): (r: seq<T>)
    requires StrictTotalOrder(lt)
    ensures StrictlyIncreasing(r, lt)
    ensures forall y :: y in r <==> y in s
    ensures |r| <= |s|
  {
    if s == [] then [] else InsertUnique(s[0], SortedUnique(s[1..], lt), lt)
  }

  /** np.unique keeps a strictly increasing sequence exactly as it is. */
  lemma {:induction false} SortedUniqueOfIncreasing<T(!new)>(s: seq<T>, lt: (T, T) -> bool)
    requires StrictTotalOrder(lt) && StrictlyIncreasing(s, lt)
    ensures SortedUnique(s, lt) == s
  {
    if s != [] {
      assert StrictlyIncreasing(s[1..], lt);
      SortedUniqueOfIncreasing(s[1..], lt);
      if |s| > 1 {
        assert lt(s[0], s[1]);
        assert [s[0]] + s[1..] == s;
      }
    }
  }

  /** The order of reals, as a first-class function. */
  predicate RealLess(a: real, b: real) { a < b }

  lemma RealLessIsStrictTotalOrder()
    ensures StrictTotalOrder(RealLess)
  {
  }

  /** Code-point lexicographic order on strings, the order numpy sorts them in. */
  predicate StrLess(a: string, b: string)
  {
    if a == [] then b != []
    else if b == [] then false
    else if a[0] != b[0] then a[0] < b[0]
    else StrLess(a[1..], b[1..])
  }

  lemma {:induction false} StrLessIrreflexive(a: string)
    ensures !StrLess(a, a)
  {
    if a != [] { StrLessIrreflexive(a[1..]); }
  }

  lemma {:induction false} StrLessTransitive(a: string, b: string, c: string)
    requires StrLess(a, b) && StrLess(b, c)
    ensures StrLess(a, c)
  {
    if a != [] && b != [] && c != [] && a[0] == b[0] && b[0] == c[0] {
      StrLessTransitive(a[1..], b[1..], c[1..]);
    }
  }

  lemma {:induction false} StrLessTotal(a: string, b: string)
    requires a != b
    ensures StrLess(a, b) || StrLess(b, a)
  {
    if a != [] && b != [] && a[0] == b[0] {
      assert a == [a[0]] + a[1..] && b == [b[0]] + b[1..];
      StrLessTotal(a[1..], b[1..]);
    }
  }

  lemma StrLessIsStrictTotalOrder()
    ensures StrictTotalOrder(StrLess)
  {
    forall a ensures !StrLess(a, a) { StrLessIrreflexive(a); }
    forall a, b, c | StrLess(a, b) && StrLess(b, c) ensures StrLess(a, c) {
      StrLessTransitive(a, b, c);
    }
    forall a, b | a != b ensures StrLess(a, b) || StrLess(b, a) { StrLessTotal(a, b); }
  }

  // ---------------------------------------------------------------------------
  // Extremes and counts

  /** `np.min` of a non-empty sequence. */
  function Min(s: seq<real>): (m: real)
    requires |s| > 0
    ensures m in s && forall x :: x in s ==> m <= x
  {
    if |s| == 1 then s[0]
    else
      var rest := Min(s[1..]);
      assert forall x :: x in s ==> x == s[0] || x in s[1..];
      if s[0] <= rest then s[0] else rest
  }

  /** `np.max` of a non-empty sequence. */
  function Max(s: seq<real>): (m: real)
    requires |s| > 0
    ensures m in s && forall x :: x in s ==> x <= m
  {
    if |s| == 1 then s[0]
    else
      var rest := Max(s[1..]);
      assert forall x :: x in s ==> x == s[0] || x in s[1..];
      if s[0] >= rest then s[0] else rest
  }

  /** The largest number of times any one element occurs among `s[..k]`,
      counted in the whole of `s`. */
  function MaxCountBelow<T(==)>(s: seq<T>, k: nat): (m: nat)
    requires k <= |s|
    ensures forall i :: 0 <= i < k ==> multiset(s)[s[i]] <= m
    ensures k > 0 ==> exists i :: 0 <= i < k && multiset(s)[s[i]] == m
    ensures k == 0 ==> m == 0
  {
    if k == 0 then 0
    else
      var rest := MaxCountBelow(s, k - 1);
      var here := multiset(s)[s[k - 1]];
      if here >= rest then here else rest
  }

  /** How often the most frequent element of `s` occurs (0 for an empty `s`):
      pandas' `value_counts()[0]`. */
  function MaxMultiplicity<T(==,!new)>(s: seq<T>): (m: nat)
    ensures forall x :: multiset(s)[x] <= m
    ensures |s| > 0 ==> exists i :: 0 <= i < |s| && multiset(s)[s[i]] == m
    ensures |s| > 0 ==> m >= 1
  {
    var m := MaxCountBelow(s, |s|);
    assert forall x :: x in s ==> exists i :: 0 <= i < |s| && s[i] == x;
    assert forall x :: x !in s ==> multiset(s)[x] == 0;
    if |s| > 0 then assert multiset(s)[s[0]] >= 1; m else m
  }

  // ---------------------------------------------------------------------------
  // Decimal rendering of naturals, as Python's str(n)

  function DigitChar(d: nat): (c: char)
    requires d < 10
    ensures '0' <= c <= '9'
  {
    (('0' as int) + d) as char
  }

  function DigitValue(c: char): nat
  {
    if '0' <= c <= '9' then (c as int) - ('0' as int) else 0
  }

  /** The decimal digits of `n`, most significant first, without leading zeros. */
  function Decimal(n: nat): (r: string)
    ensures |r| >= 1
    ensures forall k :: 0 <= k < |r| ==> '0' <= r[k] <= '9'
    ensures r[0] == '0' ==> n == 0
  {
    if n < 10 then [DigitChar(n)] else Decimal(n / 10) + [DigitChar(n % 10)]
  }

  /** Reads a string of decimal digits back as a natural. */
  function ParseDecimal(s: string): nat
  {
    if s == [] then 0 else ParseDecimal(s[..|s| - 1]) * 10 + DigitValue(s[|s| - 1])
  }

  lemma {:induction false} DecimalRoundTrip(n: nat)
    ensures ParseDecimal(Decimal(n)) == n
  {
    if n >= 10 {
      DecimalRoundTrip(n / 10);
      var r := Decimal(n);
      assert r[..|r| - 1] == Decimal(n / 10);
      assert DigitValue(r[|r| - 1]) == n % 10;
    }
  }

  /** Different naturals are written differently. */
  lemma DecimalInjective(a: nat, b: nat)
    requires Decimal(a) == Decimal(b)
    ensures a == b
  {
    DecimalRoundTrip(a);
    DecimalRoundTrip(b);
  }
}
