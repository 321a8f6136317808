/** The array helpers of the LCR meter: a maximum seeded with a sentinel, the mean of an
    array and of a table column, and the `trapz` integration of a trace against time stamps. */
module ArrayStats {
  import opened Numerics

  /** The seed of `max_array`, meant as "below any sample". */
  const Sentinel: real := -100000.0

  /** The elements a loop `for (i = 0; i < count; i++)` visits: none for a count below 1. */
  function Prefix(a: array<real>, count: int): (s: seq<real>)
    reads a
    requires count <= a.Length
    ensures |s| == (if count < 0 then 0 else count)
    ensures forall i :: 0 <= i < |s| ==> s[i] == a[i]
  {
    if count <= 0 then [] else a[..count]
  }

  function Sum(s: seq<real>): real
  {
    if s == [] then 0.0 else Sum(s[..|s| - 1]) + s[|s| - 1]
  }

  /** The largest of the sentinel and the elements of `s`. */
  function SentinelMax(s: seq<real>): (m: real)
    ensures forall i :: 0 <= i < |s| ==> s[i] <= m
    ensures m == Sentinel || m in s
    ensures Sentinel <= m
  {
    if s == [] then Sentinel
    else
      var m' := SentinelMax(s[..|s| - 1]);
      if m' < s[|s| - 1] then s[|s| - 1] else m'
  }

  /** `max_array`: an upper bound of the first `count` elements that is one of them,
      or the sentinel when there are none or all lie below it. */
  method MaxArray(a: array<real>, count: int) returns (m: real)
    requires count <= a.Length
    ensures forall i :: 0 <= i < count ==> a[i] <= m
    ensures m == Sentinel || exists i :: 0 <= i < count && a[i] == m
    ensures count <= 0 ==> m == Sentinel
    ensures m == SentinelMax(Prefix(a, count))
  {
    m := Sentinel;
    var i := 0;
    while i < count
      invariant 0 <= i <= if count < 0 then 0 else count
      invariant m == SentinelMax(a[..i])
    {
      assert a[..i + 1][..i] == a[..i];
      if m < a[i] {
        m := a[i];
      }
      i := i + 1;
    }
    assert Prefix(a, count) == a[..i];
  }

  /** The sum of a constant sequence. */
  lemma {:induction false} SumConstant(s: seq<real>, c: real)
    requires forall i :: 0 <= i < |s| ==> s[i] == c
    ensures Sum(s) == |s| as real * c
  {
    if s != [] {
      SumConstant(s[..|s| - 1], c);
    }
  }

  /** No element exceeds the sentinel-seeded maximum, so neither does their sum per element. */
  lemma {:induction false} SumAtMostCountTimesMax(s: seq<real>, m: real)
    requires forall i :: 0 <= i < |s| ==> s[i] <= m
    ensures Sum(s) <= |s| as real * m
  {
    if s != [] {
      SumAtMostCountTimesMax(s[..|s| - 1], m);
    }
  }

  /** `mean_array`: the sum of the first `count` elements divided by `count` (a division
      of a zero sum by zero, NaN, when `count` is 0). */
  method MeanArray(a: array<real>, count: int) returns (r: Float)
    requires count <= a.Length
    ensures r == Divide(Sum(Prefix(a, count)), count as real)
    ensures count == 0 <==> r.NaN?
  {
    var mean := 0.0;
    var i := 0;
    while i < count
      invariant 0 <= i <= if count < 0 then 0 else count
      invariant mean == Sum(a[..i])
    {
      assert a[..i + 1][..i] == a[..i];
      mean := mean + a[i];
      i := i + 1;
    }
    assert Prefix(a, count) == a[..i];
    r := Divide(mean, count as real);
  }

  /** A constant array has that constant as its mean. */
  lemma MeanOfConstant(s: seq<real>, c: real)
    requires s != []
    requires forall i :: 0 <= i < |s| ==> s[i] == c
    ensures Divide(Sum(s), |s| as real) == Num(c)
  {
    SumConstant(s, c);
  }

  /** The mean never exceeds what `max_array` returns for the same elements. */
  lemma MeanAtMostMax(s: seq<real>)
    requires s != []
    ensures Divide(Sum(s), |s| as real).value <= SentinelMax(s)
  {
    MeanAtMostBound(s, SentinelMax(s));
  }

  /** The mean of elements that are all at most `m` is at most `m`. */
  lemma MeanAtMostBound(s: seq<real>, m: real)
    requires s != []
    requires forall i :: 0 <= i < |s| ==> s[i] <= m
    ensures Sum(s) / (|s| as real) <= m
  {
    SumAtMostCountTimesMax(s, m);
    QuotientBound(Sum(s), |s| as real, m);
  }

  lemma QuotientBound(x: real, n: real, m: real)
    requires n > 0.0 && x <= n * m
    ensures x / n <= m
  {
    var q := x / n;
    assert q * n == x;
  }

  /** One term of `trapz`: the absolute value of half the product of the time step and
      the DIFFERENCE of neighbouring samples. */
  function TrapzTerm(f: seq<real>, t: seq<real>, i: nat): (r: real)
    requires i + 1 < |f| && i + 1 < |t|
    ensures r >= 0.0
  {
    Abs((t[i + 1] - t[i]) * (f[i] - f[i + 1]) / 2.0)
  }

  /** The sum of the first `k` terms of `trapz`. */
  function TrapzSum(f: seq<real>, t: seq<real>, k: nat): (r: real)
    requires k == 0 || (k < |f| && k < |t|)
    ensures r >= 0.0
  {
    if k == 0 then 0.0 else TrapzSum(f, t, k - 1) + TrapzTerm(f, t, k - 1)
  }

  /** Iteration `i` of the `trapz` loop reads indices `i` and `i + 1` of an array of `length` entries. */
  predicate StepInBounds(i: int, length: int)
  {
    0 <= i && i + 1 < length
  }

  /** Every read of the `trapz` loop over `size` terms stays inside both arrays: both
      must hold more than `size` elements. */
  function TrapzReadsInBounds(size: int, fLength: int, tLength: int): (ok: bool)
    ensures ok <==> forall i :: 0 <= i < size ==> StepInBounds(i, fLength) && StepInBounds(i, tLength)
  {
    var ok := size <= 0 || (size < fLength && size < tLength);
    assert !ok ==> !StepInBounds(size - 1, fLength) || !StepInBounds(size - 1, tLength);
    ok
  }

  /** The program integrates traces of `SIGNAL_LENGTH` samples with `size` equal to
      `SIGNAL_LENGTH`, against the 22-entry time table: whatever that length, the last
      iteration reads one past the end of the trace, and for any length of 22 or more it
      also reads past the end of the time table. */
  lemma ProgramTrapzCallReadsPastEnd(signalLength: int)
    requires signalLength > 0
    ensures !StepInBounds(signalLength - 1, signalLength)
    ensures signalLength >= 22 ==> !StepInBounds(signalLength - 1, 22)
    ensures !TrapzReadsInBounds(signalLength, signalLength, 22)
  {
  }

  /** The loop of `trapz`, with the accumulator starting from `start`: the source leaves
      `result` uninitialised, so its starting value is whatever the stack held. The loop
      reads `f` and `dT` one element past `size`. */
  method TrapzFrom(f: array<real>, dT: array<real>, size: int, start: real) returns (r: real)
    requires TrapzReadsInBounds(size, f.Length, dT.Length)
    ensures r == start + TrapzSum(f[..], dT[..], if size < 0 then 0 else size)
    ensures r >= start
  {
    ghost var fs, ts := f[..], dT[..];
    r := start;
    var i := 0;
    while i < size
      invariant 0 <= i <= if size < 0 then 0 else size
      invariant r == start + TrapzSum(fs, ts, i)
    {
      assert TrapzTerm(fs, ts, i) == Abs((dT[i + 1] - dT[i]) * (f[i] - f[i + 1]) / 2.0);
      r := r + Abs((dT[i + 1] - dT[i]) * (f[i] - f[i + 1]) / 2.0);
      i := i + 1;
    }
  }

  /** `trapz` with its accumulator started at 0. */
  method Trapz(f: array<real>, dT: array<real>, size: int) returns (r: real)
    requires TrapzReadsInBounds(size, f.Length, dT.Length)
    ensures r == TrapzSum(f[..], dT[..], if size < 0 then 0 else size)
    ensures r >= 0.0
  {
    r := TrapzFrom(f, dT, size, 0.0);
  }

  /** An all-zero trace integrates to exactly 0. */
  lemma TrapzOfZeroTrace(f: seq<real>, t: seq<real>, k: nat)
    requires k == 0 || (k < |f| && k < |t|)
    requires forall i :: 0 <= i < |f| ==> f[i] == 0.0
    ensures TrapzSum(f, t, k) == 0.0
  {
    TrapzOfConstantTrace(f, t, k, 0.0);
  }

  /** Taking absolute values makes `trapz` blind to the sign of the trace. */
  lemma {:induction false} TrapzIgnoresSign(f: seq<real>, g: seq<real>, t: seq<real>, k: nat)
    requires |g| == |f|
    requires forall i :: 0 <= i < |f| ==> g[i] == -f[i]
    requires k == 0 || (k < |f| && k < |t|)
    ensures TrapzSum(g, t, k) == TrapzSum(f, t, k)
  {
    if k > 0 {
      TrapzIgnoresSign(f, g, t, k - 1);
      NegatedStepSameArea(f, g, t, k - 1);
    }
  }

  /** A term whose two samples are equal adds nothing. */
  lemma FlatStepHasNoArea(f: seq<real>, t: seq<real>, i: nat)
    requires i + 1 < |f| && i + 1 < |t|
    requires f[i] == f[i + 1]
    ensures TrapzTerm(f, t, i) == 0.0
  {
    var d := t[i + 1] - t[i];
    assert f[i] - f[i + 1] == 0.0;
    assert d * 0.0 == 0.0;
  }

  /** Negating both samples of a term leaves its area unchanged. */
  lemma NegatedStepSameArea(f: seq<real>, g: seq<real>, t: seq<real>, i: nat)
    requires i + 1 < |f| && i + 1 < |t| && |g| == |f|
    requires g[i] == -f[i] && g[i + 1] == -f[i + 1]
    ensures TrapzTerm(g, t, i) == TrapzTerm(f, t, i)
  {
    var d, e := t[i + 1] - t[i], f[i] - f[i + 1];
    assert g[i] - g[i + 1] == -e;
    ProductNegate(d, e);
  }

  lemma ProductNegate(d: real, e: real)
    ensures d * -e / 2.0 == -(d * e / 2.0)
  {
  }

  /** With the uninitialised accumulator, an all-zero trace integrates to whatever the
      accumulator held, not to 0. */
  lemma UninitialisedTrapzOfZeroTrace(f: seq<real>, t: seq<real>, k: nat, start: real)
    requires k == 0 || (k < |f| && k < |t|)
    requires forall i :: 0 <= i < |f| ==> f[i] == 0.0
    ensures start + TrapzSum(f, t, k) == start
    ensures start != 0.0 ==> start + TrapzSum(f, t, k) != 0.0
  {
    TrapzOfZeroTrace(f, t, k);
  }

  /** Because each term uses the difference of neighbouring samples, a constant trace
      integrates to 0 whatever its value. */
  lemma {:induction false} TrapzOfConstantTrace(f: seq<real>, t: seq<real>, k: nat, c: real)
    requires k == 0 || (k < |f| && k < |t|)
    requires forall i :: 0 <= i < |f| ==> f[i] == c
    ensures TrapzSum(f, t, k) == 0.0
  {
    if k > 0 {
      TrapzOfConstantTrace(f, t, k - 1, c);
      FlatStepHasNoArea(f, t, k - 1);
    }
  }

  /** The trapezoidal rule the name promises: the signed area under the samples,
      half the time step times the SUM of neighbouring samples. */
  function TrapezoidRule(f: seq<real>, t: seq<real>, k: nat): real
    requires k == 0 || (k < |f| && k < |t|)
  {
    if k == 0 then 0.0 else TrapezoidRule(f, t, k - 1) + (t[k] - t[k - 1]) * (f[k - 1] + f[k]) / 2.0
  }

  /** The trapezoidal rule integrates a constant exactly: the constant times the elapsed time. */
  lemma {:induction false} TrapezoidRuleOfConstant(f: seq<real>, t: seq<real>, k: nat, c: real)
    requires k == 0 || (k < |f| && k < |t|)
    requires forall i :: 0 <= i < |f| ==> f[i] == c
    ensures k > 0 ==> TrapezoidRule(f, t, k) == c * (t[k] - t[0])
    ensures k == 0 ==> TrapezoidRule(f, t, k) == 0.0
  {
    if k > 1 {
      TrapezoidRuleOfConstant(f, t, k - 1, c);
      assert (t[k] - t[k - 1]) * (c + c) / 2.0 == c * (t[k] - t[k - 1]);
    }
  }

  /** The first `k` entries of column `column` of a table. */
  function Column(table: array2<real>, k: nat, column: int): (s: seq<real>)
    reads table
    requires k <= table.Length0
    requires k == 0 || 0 <= column < table.Length1
    ensures |s| == k
    ensures forall i :: 0 <= i < k ==> s[i] == table[i, column]
  {
    if k == 0 then [] else Column(table, k - 1, column) + [table[k - 1, column]]
  }

  /** The loop of `mean_array_column`, with the accumulator starting from `start`
      (uninitialised in the source), divided by `length`. */
  method MeanArrayColumnFrom(table: array2<real>, length: int, column: int, start: real) returns (r: Float)
    requires length <= table.Length0
    requires length <= 0 || 0 <= column < table.Length1
    ensures r == Divide(start + Sum(Column(table, if length < 0 then 0 else length, column)), length as real)
  {
    ghost var col := Column(table, if length < 0 then 0 else length, column);
    var result := start;
    var i := 0;
    while i < length
      invariant 0 <= i <= if length < 0 then 0 else length
      invariant result == start + Sum(col[..i])
    {
      assert col[..i + 1][..i] == col[..i];
      result := result + table[i, column];
      i := i + 1;
    }
    assert col[..i] == col;
    r := Divide(result, length as real);
  }

  /** `mean_array_column` with its accumulator started at 0: the mean of the column's first
      `length` entries, NaN for a length of 0. */
  method MeanArrayColumn(table: array2<real>, length: int, column: int) returns (r: Float)
    requires length <= table.Length0
    requires length <= 0 || 0 <= column < table.Length1
    ensures r == Divide(Sum(Column(table, if length < 0 then 0 else length, column)), length as real)
    ensures length == 0 <==> r.NaN?
  {
    r := MeanArrayColumnFrom(table, length, column, 0.0);
  }

  /** With the uninitialised accumulator the column mean is off by the accumulator's
      start divided by the row count. */
  lemma UninitialisedColumnMeanOffset(s: seq<real>, start: real)
    requires s != []
    ensures Divide(start + Sum(s), |s| as real).value
         == Divide(Sum(s), |s| as real).value + start / |s| as real
  {
    var n := |s| as real;
    assert (start + Sum(s)) / n == Sum(s) / n + start / n;
  }
}
