# Batch technical indicators (RSI, Bollinger bands, MACD, EMA)

This project models the indicator kernels of `GPUIndicators` in
`src/lib/gpu-accelerated-indicators.py`. Each kernel takes a price matrix with
one row per symbol and one column per time step, oldest first. It returns
matrices of the same shape. Rows never interact. Along the time axis the EMA
and RSI kernels compute each column from the previous one, one column per step;
the Bollinger kernel recomputes every column from its own trailing window of
prices.

- `common.dfy` (module `Common`) holds what the kernels share:
  - the output cell `Cell = NaN | Num(value)`, where `NaN` is the "no value yet"
    sentinel that outputs are pre-filled with;
  - the one error a kernel can raise, an out-of-range column (`ColumnOutOfRange`);
  - a row of a matrix, sums and means;
  - the row-vectorised column assignment `m[:, i] = column` (`SetColumn`).
- `ema.dfy` (module `EmaKernel`) is `_ema_gpu`:
  - column 0 is seeded with the first price;
  - every later column is `alpha * price + (1 - alpha) * previous`, with
    `alpha = 2 / (period + 1)`.
- `rsi.dfy` (module `RsiKernel`) is `rsi_batch`:
  - first differences are split into gains and losses;
  - the averages are seeded with the mean of the first `period` values, then
    smoothed with Wilder's factor `1 / period`;
  - the index is `100 - 100 / (1 + avgGain / (avgLoss + 1e-10))`.
- `bollinger.dfy` (module `BollingerKernel`) is `bollinger_bands_batch`: the
  mean and the population standard deviation of every trailing window of
  `period` prices, and the bands `mean +- k * std`.
- `macd.dfy` (module `MacdKernel`) is `macd_batch`: fast EMA minus slow EMA
  (the line), the EMA of that line (the signal) and their difference (the
  histogram).

The EMA, RSI and Bollinger kernels are imperative methods over `array2`. Each
allocates its outputs filled with the sentinel and fills them column by column
in a loop. The MACD kernel composes three EMA kernel calls with element-wise
subtractions. Each kernel is proved against a per-row specification function
on sequences: `EmaAt`, `RsiCell`, `BandsAt` or `MacdOfRow`. The indicator properties are lemmas
about those functions. None of the kernels has a `modifies` clause, so none
changes its input. Each output is fully determined by the inputs, so calling
a kernel twice on the same input gives the same result.

Some of the code's behaviour differs from what is usually expected of these
indicators. The model follows the code:

- **Constant price rows.** A constant row has no gains and no losses, so
  `rs = 0 / (0 + 1e-10) = 0`. Its index after the warm-up is exactly 0, not 50
  (`RsiKernel.ConstantRowRsiIsZero`).
- **Steadily rising rows.** A row that rises by the same step at every column
  does not approach 100 gradually. Its index is one constant value,
  `100 - 100 / (1 + step / 1e-10)`, at every column after the warm-up
  (`RsiKernel.RisingRowRsiIsConstantAboveHalf`).
- **Index range.** Over exact reals the index lies in `[0, 100)`. The source
  computes in single precision, where the stored value can round to exactly
  100 (see "Left out").
- **EMA period 0.** Period 0 does not divide by zero:
  `2 / (0 + 1)` is defined, giving `alpha = 2`. `EmaKernel.EmaBatch` accepts
  every natural period.
- **Histories of exactly `period` prices.** A price history with exactly
  `period` prices does not stay all sentinel. It raises an error (see Findings).

## Model

| member | source | states |
|---|---|---|
| Common.Mean | src/lib/gpu-accelerated-indicators.py:54-55 | `cp.mean` of a non-empty window: the value that, taken once per element, adds up to the window's total |
| Common.MeanAtLeast | src/lib/gpu-accelerated-indicators.py:54-55 | the mean of a non-empty window is at least any lower bound of its elements |
| Common.MeanAtMost | src/lib/gpu-accelerated-indicators.py:54-55 | the mean of a non-empty window is at most any upper bound of its elements |
| Common.MeanOfConstant | src/lib/gpu-accelerated-indicators.py:103 | the mean of a window of equal values is that value |
| Common.SetColumn | src/lib/gpu-accelerated-indicators.py:104 | `m[:, i] = column` replaces column `i` of every row with the given values and leaves every other cell unchanged |
| EmaKernel.Alpha | src/lib/gpu-accelerated-indicators.py:155 | the smoothing factor lies in (0, 2]; it is at most 1 for periods of at least 1, and it is 1 exactly when the period is 1 |
| EmaKernel.Blend | src/lib/gpu-accelerated-indicators.py:163 | one smoothing step `alpha * x + (1 - alpha) * prev`: with factor 1 it is the new price, with factor 0 the previous average, and it keeps a value that equals the previous average |
| EmaKernel.EmaAt | src/lib/gpu-accelerated-indicators.py:158-163 | the EMA of a row at column `i`, seeded with the first price and blended forward; with factor 1 it is the price at `i`, with factor 0 the first price |
| EmaKernel.EmaRow | src/lib/gpu-accelerated-indicators.py:156-163 | the EMA of a whole row, one value per price |
| EmaKernel.EmaRecurrence | src/lib/gpu-accelerated-indicators.py:158-163 | the EMA row starts with the first price, and every later value is `alpha * price + (1 - alpha) * previous` |
| EmaKernel.EmaOfPeriodOneIsIdentity | src/lib/gpu-accelerated-indicators.py:155-163 | with period 1 the EMA of a row is the row itself |
| EmaKernel.EmaOfConstant | src/lib/gpu-accelerated-indicators.py:158-163 | if the prices up to column `i` all equal `c`, the EMA at `i` is `c` for every smoothing factor |
| EmaKernel.EmaWithinBounds | src/lib/gpu-accelerated-indicators.py:162-163 | with a factor in [0, 1], the EMA at column `i` stays within any bounds that the prices up to `i` respect |
| EmaKernel.BlendAtLeast | src/lib/gpu-accelerated-indicators.py:163 | one smoothing step with a factor in [0, 1] never falls below a bound respected by both the price and the previous average |
| EmaKernel.BlendAtMost | src/lib/gpu-accelerated-indicators.py:163 | one smoothing step with a factor in [0, 1] never rises above a bound respected by both the price and the previous average |
| EmaKernel.EmaNoLookahead | src/lib/gpu-accelerated-indicators.py:158-163 | two rows that agree up to column `i` have the same EMA at `i` |
| EmaKernel.EmaBatch | src/lib/gpu-accelerated-indicators.py:153-165 | with no columns, the kernel fails with an out-of-range column 0 (the seed write); otherwise it returns a fresh matrix of the input's shape in which every cell is defined and equals the EMA of its own row at that column |
| RsiKernel.Diffs | src/lib/gpu-accelerated-indicators.py:43 | `cp.diff` of a row: one value per pair of neighbours, each the step from one price to the next |
| RsiKernel.Gains | src/lib/gpu-accelerated-indicators.py:46 | the gains of a row: one non-negative value per difference, at least that difference |
| RsiKernel.Losses | src/lib/gpu-accelerated-indicators.py:47 | the losses of a row: one non-negative value per difference, at least its negation |
| RsiKernel.WilderAverage | src/lib/gpu-accelerated-indicators.py:54-65 | the average at column `i`: the mean of the first `period` values at column `period`, then one smoothing step with factor `1 / period` per later column |
| RsiKernel.RsiFrom | src/lib/gpu-accelerated-indicators.py:58-59 | `100 - 100 / (1 + avgGain / (avgLoss + 1e-10))`; an average gain of 0 gives index 0 |
| RsiKernel.SeedAverages | src/lib/gpu-accelerated-indicators.py:54-55 | the seed mean of the first `period` values of every row, one per row |
| RsiKernel.SmoothAverages | src/lib/gpu-accelerated-indicators.py:64-65 | one vectorised smoothing step of every row's average, one per row |
| RsiKernel.RsiColumn | src/lib/gpu-accelerated-indicators.py:58-59 | the index of every row from its two averages, one cell per row |
| RsiKernel.SeedGuard | src/lib/gpu-accelerated-indicators.py:53 | the length guard as written: the seed is computed when there are at least `period` columns |
| RsiKernel.ColumnExists | src/lib/gpu-accelerated-indicators.py:59 | whether the seed column `period` exists to be written; when it does not, the write raises an IndexError |
| RsiKernel.GainsLossesSplitDiffs | src/lib/gpu-accelerated-indicators.py:43-47 | gains and losses are non-negative, at most one of each pair is non-zero, and gain minus loss is the price difference |
| RsiKernel.WilderFactorInUnitRange | src/lib/gpu-accelerated-indicators.py:62 | for periods of at least 1, the smoothing factor `1 / period` lies in (0, 1] |
| RsiKernel.WilderAverageAtLeast | src/lib/gpu-accelerated-indicators.py:54-65 | the seeded and smoothed average at column `i` is at least any lower bound of the values it took in, so it is never negative |
| RsiKernel.WilderAverageAtMost | src/lib/gpu-accelerated-indicators.py:54-65 | the seeded and smoothed average at column `i` is at most any upper bound of the values it took in |
| RsiKernel.WilderAverageNoLookahead | src/lib/gpu-accelerated-indicators.py:54-65 | the average at column `i` depends only on the values before column `i` |
| RsiKernel.RsiFromInRange | src/lib/gpu-accelerated-indicators.py:58-59 | for non-negative averages, `100 - 100 / (1 + rs)` lies in [0, 100) |
| RsiKernel.RsiFromAtLeastHalf | src/lib/gpu-accelerated-indicators.py:58-59 | the index is at least 50 exactly when `avgGain >= avgLoss + 1e-10`, and equals 50 exactly when `avgGain == avgLoss + 1e-10`; an average gain no larger than the average loss (equal averages included) gives an index below 50 |
| RsiKernel.RsiCell | src/lib/gpu-accelerated-indicators.py:50-68 | a cell is the sentinel exactly when the row has at most `period` prices or the column is before `period`; every other cell holds an index in [0, 100) |
| RsiKernel.SteadyRowRsi | src/lib/gpu-accelerated-indicators.py:43-68 | a row that moves by the same `step >= 0` at every column has, after the warm-up, the index of average gain `step` and average loss 0 |
| RsiKernel.ConstantRowRsiIsZero | src/lib/gpu-accelerated-indicators.py:43-68 | a constant row has index exactly 0 at every column after the warm-up |
| RsiKernel.RisingRowRsiIsConstantAboveHalf | src/lib/gpu-accelerated-indicators.py:43-68 | a row rising by `step >= 1e-10` per column has the index `100 - 100 / (1 + step / 1e-10)` at every column after the warm-up, a value in [50, 100) |
| RsiKernel.RsiNoLookahead | src/lib/gpu-accelerated-indicators.py:43-68 | two rows that agree up to column `i` have the same index at `i` |
| RsiKernel.GuardAdmitsUnseededRow | src/lib/gpu-accelerated-indicators.py:53-59 | a row of exactly `period` prices passes the guard as written, yet it has fewer than `period` differences, no column `period` to write the seed into, and no defined index anywhere |
| RsiKernel.ShortRowsStaySentinel | src/lib/gpu-accelerated-indicators.py:50-53 | under the corrected guard, a row of at most `period` prices is entirely the sentinel |
| RsiKernel.SeedAveragesStartSmoothing | src/lib/gpu-accelerated-indicators.py:54-55 | the seed means of every row are that row's averages at column `period`, and they are non-negative |
| RsiKernel.SmoothAveragesAdvance | src/lib/gpu-accelerated-indicators.py:64-65 | one vectorised smoothing step moves every row's averages from column `i - 1` to column `i` |
| RsiKernel.RsiColumnIsRsiCells | src/lib/gpu-accelerated-indicators.py:58-59 | the index column computed from the averages at column `i` holds, for every row, that row's index at `i` |
| RsiKernel.SeedColumn | src/lib/gpu-accelerated-indicators.py:54-59 | the seed makes every row's averages those at column `period` and fills column `period` of every row with that row's index, keeping later columns at the sentinel |
| RsiKernel.SmoothColumn | src/lib/gpu-accelerated-indicators.py:63-68 | one loop iteration moves the averages from column `i - 1` to column `i` and fills column `i` of every row with that row's index, keeping later columns at the sentinel |
| RsiKernel.SmoothRemainingColumns | src/lib/gpu-accelerated-indicators.py:62-68 | after the seeded column, the loop fills every later column of every row with that row's index |
| RsiKernel.RsiBatch | src/lib/gpu-accelerated-indicators.py:24-71 | with exactly `period` columns, the kernel fails with an out-of-range column `period`; otherwise it returns a fresh matrix of the input's shape in which every cell equals `RsiCell` of its own row |
| BollingerKernel.Window | src/lib/gpu-accelerated-indicators.py:100 | the trailing window of column `i`: exactly the `period` prices ending at `i`, in order |
| BollingerKernel.WindowBands | src/lib/gpu-accelerated-indicators.py:103-111 | the three bands of one window, all defined, with the middle band its mean |
| BollingerKernel.SquaredDeviations | src/lib/gpu-accelerated-indicators.py:107 | the squared distance of every window price from the mean, inside `cp.std`: one per price, none negative |
| BollingerKernel.Variance | src/lib/gpu-accelerated-indicators.py:107 | the population variance of a window is never negative |
| BollingerKernel.BandsAt | src/lib/gpu-accelerated-indicators.py:94-111 | all three bands are the sentinel together, exactly during the warm-up columns `i < period - 1` |
| BollingerKernel.MiddleBandIsWindowMean | src/lib/gpu-accelerated-indicators.py:99-104 | after the warm-up, the middle band is the mean of exactly the `period` prices ending at column `i`, so it lies between any bounds of those prices |
| BollingerKernel.BandsAreSymmetric | src/lib/gpu-accelerated-indicators.py:107-111 | `upper - middle == middle - lower == k * std` of the window |
| BollingerKernel.BandsAreOrdered | src/lib/gpu-accelerated-indicators.py:107-111 | with `k >= 0` and a true square root, `lower <= middle <= upper` |
| BollingerKernel.BandsOfConstantWindow | src/lib/gpu-accelerated-indicators.py:100-111 | a window of equal prices `c` gives all three bands equal to `c` |
| BollingerKernel.BandsNoLookahead | src/lib/gpu-accelerated-indicators.py:99-100 | two rows that agree up to column `i` have the same bands at `i` |
| BollingerKernel.BollingerBandsBatch | src/lib/gpu-accelerated-indicators.py:73-114 | returns three fresh, distinct matrices of the input's shape, and every cell triple equals `BandsAt` of its own row |
| MacdKernel.MacdLine | src/lib/gpu-accelerated-indicators.py:138-142 | the MACD line of a row has one value per price |
| MacdKernel.MacdOfRow | src/lib/gpu-accelerated-indicators.py:138-148 | the line, signal and histogram of a row each have one value per price |
| MacdKernel.MacdStartsAtZero | src/lib/gpu-accelerated-indicators.py:138-148 | all three series start at 0, because both EMAs are seeded with the first price |
| MacdKernel.ZeroLineHasZeroSignal | src/lib/gpu-accelerated-indicators.py:145-148 | a line that is 0 everywhere has a signal and a histogram that are 0 everywhere |
| MacdKernel.EqualPeriodsGiveZeroMacd | src/lib/gpu-accelerated-indicators.py:138-148 | equal fast and slow periods make all three series 0 |
| MacdKernel.ConstantRowGivesZeroMacd | src/lib/gpu-accelerated-indicators.py:138-148 | a flat price row makes all three series 0 |
| MacdKernel.SignalPeriodOneTracksLine | src/lib/gpu-accelerated-indicators.py:145-148 | with signal period 1, the signal line equals the MACD line and the histogram is 0 |
| MacdKernel.MacdNoLookahead | src/lib/gpu-accelerated-indicators.py:138-148 | two rows that agree up to column `i` have the same line, signal and histogram at `i` |
| MacdKernel.Values | src/lib/gpu-accelerated-indicators.py:138-145 | the values of an EMA kernel output, every cell of which is defined, as a plain matrix |
| MacdKernel.Subtract | src/lib/gpu-accelerated-indicators.py:142 | element-wise difference of two matrices of the same shape, as a fresh matrix; also used for line 148 |
| MacdKernel.MacdBatch | src/lib/gpu-accelerated-indicators.py:116-151 | with no columns, the first EMA call fails; otherwise three fresh, distinct matrices of the input's shape, the histogram is line minus signal cell by cell, and each row's three series are those of `MacdOfRow` |

## Left out

- The memory pools, `__init__` and `clear_memory` are not modelled. They only
  manage device memory, and no kernel result depends on them. So
  `GPUIndicators`, which has no other state, is not modelled as a class: its
  kernels are module-level methods.
- The host/device copies (`cp.asarray`, `cp.asnumpy`) and the conversion of
  nested lists to arrays are not modelled. They do not change any value.
- Single-precision floating point (lines 36, 39, 50, 94-96) is not modelled.
  Prices and results are exact reals, and `1e-10` is the exact rational
  `0.0000000001`.
- RsiKernel.RsiFromInRange: the bound `< 100` holds over exact reals only. In
  single precision, once `rs` exceeds about 2.6e7, `100 / (1 + rs)` is below
  half a float step at 100, and lines 59 and 68 store exactly 100.0. For
  example, a row rising by 0.01 per column with no losses gives `rs = 1e8`.
  The same caveat applies to RsiKernel.RsiCell and
  RsiKernel.RisingRowRsiIsConstantAboveHalf.
- The default arguments (`period = 14` at line 24; `period = 20`,
  `std_multiplier = 2.0` at line 74; `12`, `26`, `9` at line 117) are not
  modelled: every parameter is passed explicitly.
- NaN or infinite input prices, and the way they propagate, are not modelled.
  In the model, the sentinel only ever marks cells that were never written.
- `cp.std` takes a square root, which Dafny's reals do not have. The square
  root is a parameter `root` of the Bollinger model. Properties that need it
  to be a true square root require `IsSquareRoot(root)`; the variance itself
  is exact.
- EmaKernel.EmaBatch: negative periods are not modelled (the period is a
  `nat`). With period -1, `2 / (period + 1)` divides by zero.
- RsiKernel.RsiBatch: periods below 1 are excluded by its precondition. In the
  source, period 0 on a matrix with at least one column takes the mean of an
  empty slice and then divides by zero at line 62. On a matrix without columns,
  the write to `rsi_values[:, 0]` at line 59 raises an IndexError first.
- BollingerKernel.BollingerBandsBatch: periods below 1 are excluded by its
  precondition. In the source, period 0 makes every window `prices[:, i+1:i+1]`
  empty, so every cell stays NaN, and a matrix without columns raises an
  IndexError at `i = -1`. Negative periods take windows through negative
  slice indices.
- RsiKernel.RsiBatch: for a matrix of exactly `period` columns, the model
  reports the out-of-range write at line 59. It does not model the seed means
  computed just before that write, which have no observable effect.
- BollingerKernel.BandsAreOrdered: holds only for a non-negative multiplier
  `k`. A negative `std_multiplier` swaps the upper and lower bands.
- Parallel execution across rows is not modelled. Each vectorised column
  update is one simultaneous `forall` assignment over all rows.
- The benchmark (`benchmark_rsi_performance`), the `__main__` block and the
  CUDA availability script `test-cuda.py` are not part of this model. They
  time and print, and compute no indicator.

## Findings

| source | as written | input that shows it | evidently intended | confidence | as-written member | corrected member |
|---|---|---|---|---|---|---|
| src/lib/gpu-accelerated-indicators.py:53-59 | The seed is computed when `data_length >= period`. It is then written to column `period`, which exists only when `data_length > period`. | A 1 x 14 price matrix with `period = 14` passes the guard. The write to `rsi_values[:, 14]` then raises an IndexError. | A history of at most `period` prices has no complete seed window, so its row stays all sentinel (guard `data_length > period`). | high; not executed | RsiKernel.RsiBatch | RsiKernel.ShortRowsStaySentinel |

`RsiKernel.RsiBatch` keeps the guard as written: with exactly `period` columns
it returns `Err(ColumnOutOfRange(period, period))`.
`RsiKernel.GuardAdmitsUnseededRow` shows that such a row passes the guard
although it has no seed column and no defined index. The per-row specification
`RsiKernel.RsiCell`, which every RSI property is stated against, uses the
corrected guard.
