/** The relative strength index kernel (`rsi_batch`). Each row's first
    differences are split into gains and losses; their averages are seeded with
    the plain mean of the first `period` differences and then smoothed with
    Wilder's factor `1 / period`; the index is `100 - 100 / (1 + rs)` with
    `rs = avgGain / (avgLoss + 1e-10)`. Columns before `period` keep the sentinel. */
module RsiKernel {
  import opened Common
  import opened EmaKernel

  /** The constant the source adds to the average loss before dividing (1e-10). */
  const Epsilon: real := 0.0000000001

  /** `cp.diff` along the time axis: one difference per pair of neighbouring prices. */
  function Diffs(row: seq<real>): (diffs: seq<real>)
    ensures |diffs| == if |row| == 0 then 0 else |row| - 1
    ensures forall j :: 0 <= j < |diffs| ==> row[j] + diffs[j] == row[j + 1]
  {
    if |row| == 0 then [] else seq(|row| - 1, j requires 0 <= j < |row| - 1 => row[j + 1] - row[j])
  }

  /** The positive part of each difference. */
  function Gains(row: seq<real>): (gains: seq<real>)
    ensures |gains| == |Diffs(row)|
    ensures forall j :: 0 <= j < |gains| ==> gains[j] >= 0.0 && gains[j] >= Diffs(row)[j]
  {
    var diffs := Diffs(row);
    seq(|diffs|, j requires 0 <= j < |diffs| => if diffs[j] > 0.0 then diffs[j] else 0.0)
  }

  /** The magnitude of the negative part of each difference. */
  function Losses(row: seq<real>): (losses: seq<real>)
    ensures |losses| == |Diffs(row)|
    ensures forall j :: 0 <= j < |losses| ==> losses[j] >= 0.0 && losses[j] >= -Diffs(row)[j]
  {
    var diffs := Diffs(row);
    seq(|diffs|, j requires 0 <= j < |diffs| => if diffs[j] < 0.0 then -diffs[j] else 0.0)
  }

  /** Gains and losses are non-negative, at most one of them is non-zero, and
      together they give back the difference. */
  lemma GainsLossesSplitDiffs(row: seq<real>, j: nat)
    requires j < |Diffs(row)|
    ensures Gains(row)[j] >= 0.0 && Losses(row)[j] >= 0.0
    ensures Gains(row)[j] == 0.0 || Losses(row)[j] == 0.0
    ensures Gains(row)[j] - Losses(row)[j] == Diffs(row)[j] == row[j + 1] - row[j]
  {
  }

  /** The Wilder-smoothed average of `xs` at output column `i`: at column `period`
      the mean of the first `period` values, and at each later column one step of
      smoothing with factor `1 / period` that takes in value `i - 1`. */
  function WilderAverage(xs: seq<real>, period: nat, i: nat): real
    requires 1 <= period <= i <= |xs|
    decreases i
  {
    if i == period then Mean(xs[..period])
    else Blend(1.0 / (period as real), xs[i - 1], WilderAverage(xs, period, i - 1))
  }

  lemma WilderFactorInUnitRange(period: nat)
    requires period >= 1
    ensures 0.0 < 1.0 / (period as real) <= 1.0
  {
  }

  /** The average never drops below a lower bound of the values it has taken in. */
  lemma {:induction false} WilderAverageAtLeast(xs: seq<real>, period: nat, i: nat, lo: real)
    requires 1 <= period <= i <= |xs|
    requires forall j :: 0 <= j < i ==> lo <= xs[j]
    ensures lo <= WilderAverage(xs, period, i)
  {
    if i == period {
      MeanAtLeast(xs[..period], lo);
    } else {
      WilderAverageAtLeast(xs, period, i - 1, lo);
      WilderFactorInUnitRange(period);
      BlendAtLeast(1.0 / (period as real), xs[i - 1], WilderAverage(xs, period, i - 1), lo);
    }
  }

  /** The average never rises above an upper bound of the values it has taken in. */
  lemma {:induction false} WilderAverageAtMost(xs: seq<real>, period: nat, i: nat, hi: real)
    requires 1 <= period <= i <= |xs|
    requires forall j :: 0 <= j < i ==> xs[j] <= hi
    ensures WilderAverage(xs, period, i) <= hi
  {
    if i == period {
      MeanAtMost(xs[..period], hi);
    } else {
      WilderAverageAtMost(xs, period, i - 1, hi);
      WilderFactorInUnitRange(period);
      BlendAtMost(1.0 / (period as real), xs[i - 1], WilderAverage(xs, period, i - 1), hi);
    }
  }

  /** No lookahead in the smoothing: the average at column `i` reads only values
      `0 .. i - 1`. */
  lemma {:induction false} WilderAverageNoLookahead(xs: seq<real>, ys: seq<real>, period: nat, i: nat)
    requires 1 <= period <= i <= |xs| && i <= |ys|
    requires forall j :: 0 <= j < i ==> xs[j] == ys[j]
    ensures WilderAverage(xs, period, i) == WilderAverage(ys, period, i)
  {
    if i == period {
      assert xs[..period] == ys[..period];
    } else {
      WilderAverageNoLookahead(xs, ys, period, i - 1);
    }
  }

  /** The index from the two averages, with the epsilon guarding the division. */
  function RsiFrom(avgGain: real, avgLoss: real): (index: real)
    requires avgGain >= 0.0 && avgLoss >= 0.0
    ensures avgGain == 0.0 ==> index == 0.0
  {
    100.0 - 100.0 / (1.0 + avgGain / (avgLoss + Epsilon))
  }

  /** Non-negative averages give an index in [0, 100): `rs >= 0`, so the subtracted
      term lies in (0, 100]. */
  lemma RsiFromInRange(avgGain: real, avgLoss: real)
    requires avgGain >= 0.0 && avgLoss >= 0.0
    ensures 0.0 <= RsiFrom(avgGain, avgLoss) < 100.0
  {
    var rs := avgGain / (avgLoss + Epsilon);
    assert rs >= 0.0;
    var term := 100.0 / (1.0 + rs);
    assert term * (1.0 + rs) == 100.0;
    ProductNonNegative(term, rs);
  }

  /** The index reaches 50 exactly when the average gain exceeds the average loss
      by at least the epsilon, and equals 50 exactly when the gain is the loss plus
      the epsilon; an average gain no larger than the average loss (equal averages
      included) keeps it below 50. */
  lemma RsiFromAtLeastHalf(avgGain: real, avgLoss: real)
    requires avgGain >= 0.0 && avgLoss >= 0.0
    ensures RsiFrom(avgGain, avgLoss) >= 50.0 <==> avgGain >= avgLoss + Epsilon
    ensures RsiFrom(avgGain, avgLoss) == 50.0 <==> avgGain == avgLoss + Epsilon
    ensures avgGain <= avgLoss ==> RsiFrom(avgGain, avgLoss) < 50.0
  {
    var rs := avgGain / (avgLoss + Epsilon);
    assert rs * (avgLoss + Epsilon) == avgGain;
    var term := 100.0 / (1.0 + rs);
    assert term * (1.0 + rs) == 100.0 && term > 0.0;
    assert RsiFrom(avgGain, avgLoss) == 100.0 - term;
    // Both sides compare `rs` with 1: the gain against the loss plus epsilon,
    // and the subtracted term against 50.
    if rs < 1.0 {
      ProductPositive(1.0 - rs, avgLoss + Epsilon);
      ProductPositive(1.0 - rs, term);
    } else if rs > 1.0 {
      ProductPositive(rs - 1.0, avgLoss + Epsilon);
      ProductPositive(rs - 1.0, term);
    }
  }

  /** The value of `rsi_batch` at one cell of one row, with the length guard
      `columns > period`: rows too short to seed (including `columns == period`)
      stay all sentinel, and so do columns before `period`; every other cell holds
      an index in [0, 100). */
  function RsiCell(row: seq<real>, period: nat, i: nat): (cell: Cell)
    requires 1 <= period && i < |row|
    ensures cell.NaN? <==> |row| <= period || i < period
    ensures cell.Num? ==> 0.0 <= cell.value < 100.0
  {
    if |row| <= period || i < period then NaN
    else
      var avgGain := WilderAverage(Gains(row), period, i);
      var avgLoss := WilderAverage(Losses(row), period, i);
      WilderAverageAtLeast(Gains(row), period, i, 0.0);
      WilderAverageAtLeast(Losses(row), period, i, 0.0);
      RsiFromInRange(avgGain, avgLoss);
      Num(RsiFrom(avgGain, avgLoss))
  }

  /** A row that moves by the same `step >= 0` at every column has average gain
      `step` and average loss 0 at every column from `period` on. */
  lemma SteadyRowRsi(row: seq<real>, period: nat, step: real, i: nat)
    requires 1 <= period <= i < |row|
    requires step >= 0.0
    requires forall j :: 0 <= j < |row| - 1 ==> row[j + 1] == row[j] + step
    ensures RsiCell(row, period, i) == Num(RsiFrom(step, 0.0))
  {
    var gains, losses := Gains(row), Losses(row);
    assert forall j :: 0 <= j < |gains| ==> gains[j] == step;
    assert forall j :: 0 <= j < |losses| ==> losses[j] == 0.0;
    WilderAverageAtLeast(gains, period, i, step);
    WilderAverageAtMost(gains, period, i, step);
    WilderAverageAtLeast(losses, period, i, 0.0);
    WilderAverageAtMost(losses, period, i, 0.0);
  }

  /** A constant row has no gains and no losses, so `rs = 0 / (0 + 1e-10) = 0` and
      the index after the warm-up is exactly 0 (not 50). */
  lemma ConstantRowRsiIsZero(row: seq<real>, period: nat, i: nat)
    requires 1 <= period <= i < |row|
    requires forall j :: 0 <= j < |row| ==> row[j] == row[0]
    ensures RsiCell(row, period, i) == Num(0.0)
  {
    SteadyRowRsi(row, period, 0.0, i);
  }

  /** A row rising by `step > 0` per column has no losses, so its index after the
      warm-up is the same value above 50 at every column, `100 - 100 / (1 + step / 1e-10)`,
      which is below 100. */
  lemma RisingRowRsiIsConstantAboveHalf(row: seq<real>, period: nat, step: real, i: nat)
    requires 1 <= period <= i < |row|
    requires step >= Epsilon
    requires forall j :: 0 <= j < |row| - 1 ==> row[j + 1] == row[j] + step
    ensures RsiCell(row, period, i) == Num(100.0 - 100.0 / (1.0 + step / Epsilon))
    ensures 50.0 <= RsiCell(row, period, i).value < 100.0
  {
    SteadyRowRsi(row, period, step, i);
    RsiFromAtLeastHalf(step, 0.0);
  }

  /** No lookahead: the index at column `i` depends only on prices `0 .. i`. */
  lemma RsiNoLookahead(row: seq<real>, other: seq<real>, period: nat, i: nat)
    requires 1 <= period && i < |row| && i < |other|
    requires forall j :: 0 <= j <= i ==> row[j] == other[j]
    ensures RsiCell(row, period, i) == RsiCell(other, period, i)
  {
    if period <= i {
      WilderAverageNoLookahead(Gains(row), Gains(other), period, i);
      WilderAverageNoLookahead(Losses(row), Losses(other), period, i);
    }
  }

  /** The length guard of `rsi_batch` as written: the seed is computed whenever
      there are at least `period` columns. */
  predicate SeedGuard(columns: nat, period: nat)
  {
    columns >= period
  }

  /** Whether a matrix with `columns` columns has a column `index` to write. */
  predicate ColumnExists(columns: nat, index: nat)
  {
    index < columns
  }

  /** A row of exactly `period` prices passes the guard as written, although it
      has only `period - 1` differences, no seed column `period` to write, and no
      defined index in any column. */
  lemma GuardAdmitsUnseededRow(row: seq<real>, period: nat)
    requires 1 <= period && |row| == period
    ensures SeedGuard(|row|, period)
    ensures |Gains(row)| < period && !ColumnExists(|row|, period)
    ensures forall i :: 0 <= i < |row| ==> RsiCell(row, period, i) == NaN
  {
  }

  /** With the evidently intended guard, a history of at most `period` prices
      (no complete seed window of `period` differences) leaves the whole row at
      the sentinel. */
  lemma ShortRowsStaySentinel(row: seq<real>, period: nat)
    requires 1 <= period && |row| <= period
    ensures forall i :: 0 <= i < |row| ==> RsiCell(row, period, i) == NaN
  {
  }

  /** The batch kernel. Every cell equals `RsiCell` of its own row, except that a
      matrix with exactly `period` columns passes the guard and then writes the
      missing column `period`, which the source reports as an IndexError. */
  method RsiBatch(prices: array2<real>, period: nat) returns (res: Result<array2<Cell>>)
    requires period >= 1
    ensures res.Err? <==> prices.Length1 == period
    ensures res.Err? ==> res.error == ColumnOutOfRange(period, period)
    ensures res.Ok? ==>
      fresh(res.value) && res.value.Length0 == prices.Length0 && res.value.Length1 == prices.Length1
    ensures res.Ok? ==> forall r, i :: 0 <= r < prices.Length0 && 0 <= i < prices.Length1 ==>
      res.value[r, i] == RsiCell(Row(prices, r), period, i)
  {
    var rows, columns := prices.Length0, prices.Length1;
    ghost var history := seq(rows, r requires 0 <= r < rows reads prices => Row(prices, r));
    var gains := seq(rows, r requires 0 <= r < rows reads prices => Gains(Row(prices, r)));
    var losses := seq(rows, r requires 0 <= r < rows reads prices => Losses(Row(prices, r)));
    var rsi := new Cell[rows, columns]((r, c) => NaN);
    if SeedGuard(columns, period) {
      if !ColumnExists(columns, period) {
        return Err(ColumnOutOfRange(period, columns));
      }
      assert SplitRows(history, gains, losses, period);
      assert FilledBefore(rsi, history, period, period);
      var avgGains, avgLosses := SeedColumn(rsi, history, gains, losses, period);
      SmoothRemainingColumns(rsi, history, gains, losses, avgGains, avgLosses, period);
    } else {
      assert FilledBefore(rsi, history, period, columns);
    }
    forall r | 0 <= r < rows
      ensures Row(prices, r) == history[r]
    {
    }
    return Ok(rsi);
  }

  /** The loop of `rsi_batch` after the seed: for every later column, one
      smoothing step of both averages and the index of every row written into
      that column. */
  method SmoothRemainingColumns(rsi: array2<Cell>, ghost history: seq<seq<real>>,
                                gains: seq<seq<real>>, losses: seq<seq<real>>,
                                avgGains: seq<real>, avgLosses: seq<real>, period: nat)
    requires 1 <= period < rsi.Length1
    requires SplitRows(history, gains, losses, period)
    requires AveragesAt(history, avgGains, avgLosses, period, period)
    requires FilledBefore(rsi, history, period, period + 1)
    modifies rsi
    ensures FilledBefore(rsi, history, period, rsi.Length1)
  {
    var avgGains, avgLosses := avgGains, avgLosses;
    var i := period + 1;
    ghost var seeded := period;
    while i < rsi.Length1
      invariant period + 1 <= i <= rsi.Length1 && seeded == i - 1
      invariant AveragesAt(history, avgGains, avgLosses, period, seeded)
      invariant FilledBefore(rsi, history, period, i)
    {
      avgGains, avgLosses := SmoothColumn(rsi, history, gains, losses, avgGains, avgLosses, period, i);
      seeded := i;
      i := i + 1;
    }
  }

  /** The seed of `rsi_batch`: the mean gain and mean loss of the first `period`
      differences of every row, and the index of every row written into column
      `period`. */
  method SeedColumn(rsi: array2<Cell>, ghost history: seq<seq<real>>,
                    gains: seq<seq<real>>, losses: seq<seq<real>>, period: nat)
    returns (avgGains: seq<real>, avgLosses: seq<real>)
    requires 1 <= period < rsi.Length1
    requires SplitRows(history, gains, losses, period)
    requires FilledBefore(rsi, history, period, period)
    modifies rsi
    ensures AveragesAt(history, avgGains, avgLosses, period, period)
    ensures FilledBefore(rsi, history, period, period + 1)
  {
    avgGains := SeedAverages(gains, period);
    avgLosses := SeedAverages(losses, period);
    SeedAveragesStartSmoothing(history, gains, losses, period);
    RsiColumnIsRsiCells(history, avgGains, avgLosses, period, period);
    SetColumn(rsi, period, RsiColumn(avgGains, avgLosses));
  }

  /** One iteration of that loop: the averages advance from column `i - 1` to
      column `i`, and column `i` receives every row's index. */
  method SmoothColumn(rsi: array2<Cell>, ghost history: seq<seq<real>>,
                      gains: seq<seq<real>>, losses: seq<seq<real>>,
                      avgGains: seq<real>, avgLosses: seq<real>, period: nat, i: nat)
    returns (nextGains: seq<real>, nextLosses: seq<real>)
    requires 1 <= period < i < rsi.Length1
    requires SplitRows(history, gains, losses, period)
    requires AveragesAt(history, avgGains, avgLosses, period, i - 1)
    requires FilledBefore(rsi, history, period, i)
    modifies rsi
    ensures AveragesAt(history, nextGains, nextLosses, period, i)
    ensures FilledBefore(rsi, history, period, i + 1)
  {
    var alpha := 1.0 / (period as real);
    SmoothAveragesAdvance(history, gains, losses, avgGains, avgLosses, period, i);
    nextGains := SmoothAverages(gains, avgGains, alpha, i);
    nextLosses := SmoothAverages(losses, avgLosses, alpha, i);
    RsiColumnIsRsiCells(history, nextGains, nextLosses, period, i);
    SetColumn(rsi, i, RsiColumn(nextGains, nextLosses));
  }

  /** Columns before `column` hold every row's index, later ones the sentinel. */
  ghost predicate FilledBefore(rsi: array2<Cell>, history: seq<seq<real>>, period: nat, column: nat)
    reads rsi
  {
    1 <= period && |history| == rsi.Length0 &&
    (forall r :: 0 <= r < |history| ==> |history[r]| == rsi.Length1) &&
    forall r, c :: 0 <= r < rsi.Length0 && 0 <= c < rsi.Length1 ==>
      rsi[r, c] == if c < column then RsiCell(history[r], period, c) else NaN
  }

  /** `gains` and `losses` hold the gains and losses of every row of `history`,
      and every row has more than `period` prices. */
  ghost predicate SplitRows(history: seq<seq<real>>, gains: seq<seq<real>>, losses: seq<seq<real>>, period: nat)
  {
    |gains| == |history| && |losses| == |history| &&
    forall r :: 0 <= r < |history| ==>
      period < |history[r]| && gains[r] == Gains(history[r]) && losses[r] == Losses(history[r])
  }

  /** The loop state of `RsiBatch` after column `column`: one average gain and one
      average loss per row, each the Wilder average of that row at `column`, and
      both non-negative. */
  ghost predicate AveragesAt(history: seq<seq<real>>, avgGains: seq<real>, avgLosses: seq<real>, period: nat, column: nat)
  {
    |avgGains| == |history| && |avgLosses| == |history| && 1 <= period <= column &&
    forall r :: 0 <= r < |history| ==>
      column < |history[r]| &&
      avgGains[r] == WilderAverage(Gains(history[r]), period, column) >= 0.0 &&
      avgLosses[r] == WilderAverage(Losses(history[r]), period, column) >= 0.0
  }

  /** `cp.mean(xs[:, :period], axis=1)`: the seed average of every row. */
  function SeedAverages(xs: seq<seq<real>>, period: nat): (avg: seq<real>)
    requires 1 <= period
    requires forall r :: 0 <= r < |xs| ==> period <= |xs[r]|
    ensures |avg| == |xs|
  {
    seq(|xs|, r requires 0 <= r < |xs| => Mean(xs[r][..period]))
  }

  /** One vectorised smoothing step `alpha * xs[:, i-1] + (1 - alpha) * avg`. */
  function SmoothAverages(xs: seq<seq<real>>, avg: seq<real>, alpha: real, i: nat): (next: seq<real>)
    requires |avg| == |xs| && 1 <= i
    requires forall r :: 0 <= r < |xs| ==> i <= |xs[r]|
    ensures |next| == |avg|
  {
    seq(|avg|, r requires 0 <= r < |avg| => Blend(alpha, xs[r][i - 1], avg[r]))
  }

  /** The seed averages are the Wilder averages at column `period`. */
  lemma SeedAveragesStartSmoothing(history: seq<seq<real>>, gains: seq<seq<real>>, losses: seq<seq<real>>, period: nat)
    requires 1 <= period
    requires SplitRows(history, gains, losses, period)
    ensures AveragesAt(history, SeedAverages(gains, period), SeedAverages(losses, period), period, period)
  {
    forall r | 0 <= r < |history|
      ensures WilderAverage(Gains(history[r]), period, period) >= 0.0
      ensures WilderAverage(Losses(history[r]), period, period) >= 0.0
    {
      WilderAverageAtLeast(Gains(history[r]), period, period, 0.0);
      WilderAverageAtLeast(Losses(history[r]), period, period, 0.0);
    }
  }

  /** One smoothing step moves the averages from column `i - 1` to column `i`. */
  lemma SmoothAveragesAdvance(history: seq<seq<real>>, gains: seq<seq<real>>, losses: seq<seq<real>>,
                              avgGains: seq<real>, avgLosses: seq<real>, period: nat, i: nat)
    requires SplitRows(history, gains, losses, period)
    requires 1 <= period < i
    requires AveragesAt(history, avgGains, avgLosses, period, i - 1)
    requires forall r :: 0 <= r < |history| ==> i < |history[r]|
    ensures AveragesAt(history, SmoothAverages(gains, avgGains, 1.0 / (period as real), i),
                       SmoothAverages(losses, avgLosses, 1.0 / (period as real), i), period, i)
  {
    forall r | 0 <= r < |history|
      ensures WilderAverage(Gains(history[r]), period, i) >= 0.0
      ensures WilderAverage(Losses(history[r]), period, i) >= 0.0
    {
      WilderAverageAtLeast(Gains(history[r]), period, i, 0.0);
      WilderAverageAtLeast(Losses(history[r]), period, i, 0.0);
    }
  }

  /** `100 - 100 / (1 + rs)` for every row. */
  function RsiColumn(avgGains: seq<real>, avgLosses: seq<real>): (column: seq<Cell>)
    requires |avgGains| == |avgLosses|
    requires forall r :: 0 <= r < |avgGains| ==> avgGains[r] >= 0.0 && avgLosses[r] >= 0.0
    ensures |column| == |avgGains|
  {
    seq(|avgGains|, r requires 0 <= r < |avgGains| => Num(RsiFrom(avgGains[r], avgLosses[r])))
  }

  /** The column written from the averages at column `i` holds every row's index
      at `i`. */
  lemma RsiColumnIsRsiCells(history: seq<seq<real>>, avgGains: seq<real>, avgLosses: seq<real>, period: nat, i: nat)
    requires AveragesAt(history, avgGains, avgLosses, period, i)
    ensures forall r :: 0 <= r < |history| ==> RsiColumn(avgGains, avgLosses)[r] == RsiCell(history[r], period, i)
  {
  }
}
