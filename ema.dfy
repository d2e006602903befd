/** The exponential moving average kernel (`_ema_gpu`): column 0 copies the
    input, every later column blends the new price into the previous average
    with weight `alpha = 2 / (period + 1)`. Rows never interact. */
module EmaKernel {
  import opened Common

  /** The smoothing factor of an EMA of the given period. */
  function Alpha(period: nat): (alpha: real)
    ensures 0.0 < alpha <= 2.0
    ensures period >= 1 ==> alpha <= 1.0
    ensures period == 1 <==> alpha == 1.0
  {
    2.0 / (period as real + 1.0)
  }

  /** One smoothing step: the new price weighted by `alpha`, the previous average
      by `1 - alpha`. */
  function Blend(alpha: real, x: real, prev: real): (blended: real)
    ensures alpha == 1.0 ==> blended == x
    ensures alpha == 0.0 ==> blended == prev
    ensures x == prev ==> blended == x
  {
    alpha * x + (1.0 - alpha) * prev
  }

  /** The EMA of one row at column `i`: the seed is the first price, each later
      value is `alpha * row[i] + (1 - alpha) * previous`. */
  function EmaAt(row: seq<real>, alpha: real, i: nat): (ema: real)
    requires i < |row|
    ensures alpha == 1.0 ==> ema == row[i]
    ensures alpha == 0.0 ==> ema == row[0]
    decreases i
  {
    if i == 0 then row[0] else Blend(alpha, row[i], EmaAt(row, alpha, i - 1))
  }

  /** The EMA of a whole row, one value per column. */
  function EmaRow(row: seq<real>, alpha: real): (ema: seq<real>)
    ensures |ema| == |row|
  {
    seq(|row|, i requires 0 <= i < |row| => EmaAt(row, alpha, i))
  }

  /** Column 0 is the first price, and every later column satisfies the recurrence. */
  lemma EmaRecurrence(row: seq<real>, alpha: real)
    requires |row| > 0
    ensures EmaRow(row, alpha)[0] == row[0]
    ensures forall i :: 1 <= i < |row| ==>
      EmaRow(row, alpha)[i] == alpha * row[i] + (1.0 - alpha) * EmaRow(row, alpha)[i - 1]
  {
  }

  /** Period 1 gives `alpha = 1`, and the EMA is the input itself. */
  lemma EmaOfPeriodOneIsIdentity(row: seq<real>)
    ensures EmaRow(row, Alpha(1)) == row
  {
    forall i | 0 <= i < |row|
      ensures EmaRow(row, Alpha(1))[i] == row[i]
    {
    }
  }

  /** A row whose prices are all `c` up to column `i` has EMA `c` at `i`, whatever
      the smoothing factor. */
  lemma {:induction false} EmaOfConstant(row: seq<real>, alpha: real, i: nat, c: real)
    requires i < |row|
    requires forall j :: 0 <= j <= i ==> row[j] == c
    ensures EmaAt(row, alpha, i) == c
  {
    if i > 0 {
      EmaOfConstant(row, alpha, i - 1, c);
    }
  }

  /** For a period of at least 1 the EMA is a convex combination of the prices so
      far, so it stays within any bounds those prices respect. */
  lemma {:induction false} EmaWithinBounds(row: seq<real>, alpha: real, i: nat, lo: real, hi: real)
    requires i < |row|
    requires 0.0 <= alpha <= 1.0
    requires forall j :: 0 <= j <= i ==> lo <= row[j] <= hi
    ensures lo <= EmaAt(row, alpha, i) <= hi
  {
    if i > 0 {
      EmaWithinBounds(row, alpha, i - 1, lo, hi);
      BlendAtLeast(alpha, row[i], EmaAt(row, alpha, i - 1), lo);
      BlendAtMost(alpha, row[i], EmaAt(row, alpha, i - 1), hi);
    }
  }

  /** A smoothing step with `0 <= alpha <= 1` never drops below a bound that both
      the new price and the previous average respect. */
  lemma BlendAtLeast(alpha: real, x: real, prev: real, lo: real)
    requires 0.0 <= alpha <= 1.0
    requires lo <= x && lo <= prev
    ensures lo <= Blend(alpha, x, prev)
  {
    ProductNonNegative(alpha, x - lo);
    ProductNonNegative(1.0 - alpha, prev - lo);
    assert Blend(alpha, x, prev) - lo == alpha * (x - lo) + (1.0 - alpha) * (prev - lo);
  }

  /** ... nor rises above a bound that both respect. */
  lemma BlendAtMost(alpha: real, x: real, prev: real, hi: real)
    requires 0.0 <= alpha <= 1.0
    requires x <= hi && prev <= hi
    ensures Blend(alpha, x, prev) <= hi
  {
    ProductNonNegative(alpha, hi - x);
    ProductNonNegative(1.0 - alpha, hi - prev);
    assert hi - Blend(alpha, x, prev) == alpha * (hi - x) + (1.0 - alpha) * (hi - prev);
  }

  /** No lookahead: the EMA at column `i` depends only on the prices up to `i`. */
  lemma {:induction false} EmaNoLookahead(row: seq<real>, other: seq<real>, alpha: real, i: nat)
    requires i < |row| && i < |other|
    requires forall j :: 0 <= j <= i ==> row[j] == other[j]
    ensures EmaAt(row, alpha, i) == EmaAt(other, alpha, i)
  {
    if i > 0 {
      EmaNoLookahead(row, other, alpha, i - 1);
    }
  }

  /** The batch kernel: every row of `data` smoothed with `alpha = 2 / (period + 1)`.
      The output starts out all `NaN`; a matrix without columns has no column 0 to
      seed, which the source reports as an IndexError. */
  method EmaBatch(data: array2<real>, period: nat) returns (res: Result<array2<Cell>>)
    ensures res.Err? <==> data.Length1 == 0
    ensures res.Err? ==> res.error == ColumnOutOfRange(0, 0)
    ensures res.Ok? ==>
      fresh(res.value) && res.value.Length0 == data.Length0 && res.value.Length1 == data.Length1
    ensures res.Ok? ==> forall r, i :: 0 <= r < data.Length0 && 0 <= i < data.Length1 ==>
      res.value[r, i] == Num(EmaAt(Row(data, r), Alpha(period), i))
  {
    var alpha := Alpha(period);
    var rows, columns := data.Length0, data.Length1;
    var ema := new Cell[rows, columns]((r, c) => NaN);
    if columns == 0 {
      return Err(ColumnOutOfRange(0, 0));
    }
    ghost var history := seq(rows, r requires 0 <= r < rows reads data => Row(data, r));
    forall r | 0 <= r < rows {
      ema[r, 0] := Num(data[r, 0]);
    }
    var i := 1;
    while i < columns
      invariant 1 <= i <= columns
      invariant forall r, c :: 0 <= r < rows && 0 <= c < i ==> ema[r, c] == Num(EmaAt(history[r], alpha, c))
      invariant forall r, c :: 0 <= r < rows && i <= c < columns ==> ema[r, c] == NaN
    {
      label Before:
      forall r | 0 <= r < rows {
        ema[r, i] := Num(Blend(alpha, data[r, i], ema[r, i - 1].value));
      }
      assert forall r, c :: 0 <= r < rows && 0 <= c < columns && c != i ==> ema[r, c] == old@Before(ema[r, c]);
      forall r | 0 <= r < rows
        ensures ema[r, i] == Num(EmaAt(history[r], alpha, i))
      {
        assert history[r][i] == data[r, i];
      }
      i := i + 1;
    }
    forall r | 0 <= r < rows
      ensures Row(data, r) == history[r]
    {
    }
    return Ok(ema);
  }
}
