/** The Bollinger band kernel (`bollinger_bands_batch`). From column
    `period - 1` on, each column's trailing window of `period` prices gives the
    middle band (its mean) and, with its population standard deviation `std`,
    the upper and lower bands `mean +- k * std`. Earlier columns keep the sentinel. */
module BollingerKernel {
  import opened Common

  /** The three band values of one cell. */
  datatype Bands = Bands(upper: Cell, middle: Cell, lower: Cell)

  /** `root` behaves as the square root `cp.std` takes: non-negative, and squaring
      back to its (non-negative) argument. */
  ghost predicate IsSquareRoot(root: real -> real)
  {
    forall x :: 0.0 <= x ==> 0.0 <= root(x) && root(x) * root(x) == x
  }

  /** The trailing window `prices[i-period+1 : i+1]` of column `i`. */
  function Window(row: seq<real>, period: nat, i: nat): (window: seq<real>)
    requires 1 <= period <= i + 1 <= |row|
    ensures |window| == period
    ensures forall j :: 0 <= j < period ==> window[j] == row[i + 1 - period + j]
  {
    row[i + 1 - period .. i + 1]
  }

  /** The squared distance of every element from `m`. */
  function SquaredDeviations(window: seq<real>, m: real): (squares: seq<real>)
    ensures |squares| == |window|
    ensures forall j :: 0 <= j < |squares| ==> 0.0 <= squares[j]
  {
    forall j | 0 <= j < |window|
      ensures 0.0 <= (window[j] - m) * (window[j] - m)
    {
      SquareNonNegative(window[j] - m);
    }
    seq(|window|, j requires 0 <= j < |window| => (window[j] - m) * (window[j] - m))
  }

  /** The population variance (`ddof = 0`): the mean squared deviation from the
      mean. It is never negative. */
  function Variance(window: seq<real>): (v: real)
    requires |window| > 0
    ensures 0.0 <= v
  {
    var squares := SquaredDeviations(window, Mean(window));
    MeanAtLeast(squares, 0.0);
    Mean(squares)
  }

  /** The bands of one window: `mean + k * std`, `mean`, `mean - k * std`, with
      `std = root(variance)`. */
  function WindowBands(window: seq<real>, k: real, root: real -> real): (bands: Bands)
    requires |window| > 0
    ensures bands.upper.Num? && bands.middle.Num? && bands.lower.Num?
    ensures bands.middle.value == Mean(window)
  {
    var mean := Mean(window);
    var std := root(Variance(window));
    Bands(Num(mean + k * std), Num(mean), Num(mean - k * std))
  }

  /** The bands of one row at column `i`: all sentinel during the warm-up
      `i < period - 1`, and those of the trailing window afterwards. */
  function BandsAt(row: seq<real>, period: nat, k: real, root: real -> real, i: nat): (bands: Bands)
    requires 1 <= period && i < |row|
    ensures bands.upper.NaN? == bands.middle.NaN? == bands.lower.NaN? == (i + 1 < period)
  {
    if i + 1 < period then Bands(NaN, NaN, NaN) else WindowBands(Window(row, period, i), k, root)
  }

  /** After the warm-up the middle band is the mean of exactly the `period` prices
      ending at column `i`, and so lies between any bounds those prices respect. */
  lemma MiddleBandIsWindowMean(row: seq<real>, period: nat, k: real, root: real -> real, i: nat, lo: real, hi: real)
    requires 1 <= period <= i + 1 <= |row|
    requires forall j :: i + 1 - period <= j <= i ==> lo <= row[j] <= hi
    ensures BandsAt(row, period, k, root, i).middle == Num(Mean(row[i + 1 - period .. i + 1]))
    ensures lo <= BandsAt(row, period, k, root, i).middle.value <= hi
  {
    var window := Window(row, period, i);
    assert forall j :: 0 <= j < |window| ==> window[j] == row[i + 1 - period + j];
    MeanAtLeast(window, lo);
    MeanAtMost(window, hi);
  }

  /** The upper and lower bands sit at the same distance `k * std` from the middle. */
  lemma BandsAreSymmetric(row: seq<real>, period: nat, k: real, root: real -> real, i: nat)
    requires 1 <= period <= i + 1 <= |row|
    ensures var bands := BandsAt(row, period, k, root, i);
      bands.upper.value - bands.middle.value == bands.middle.value - bands.lower.value
        == k * root(Variance(Window(row, period, i)))
  {
  }

  /** With a non-negative multiplier and a true square root the bands are ordered
      `lower <= middle <= upper`. */
  lemma BandsAreOrdered(row: seq<real>, period: nat, k: real, root: real -> real, i: nat)
    requires 1 <= period <= i + 1 <= |row|
    requires 0.0 <= k && IsSquareRoot(root)
    ensures var bands := BandsAt(row, period, k, root, i);
      bands.lower.value <= bands.middle.value <= bands.upper.value
  {
    var std := root(Variance(Window(row, period, i)));
    assert 0.0 <= std;
    ProductNonNegative(k, std);
  }

  /** A window of equal prices has variance 0, so all three bands equal that price. */
  lemma BandsOfConstantWindow(row: seq<real>, period: nat, k: real, root: real -> real, i: nat, c: real)
    requires 1 <= period <= i + 1 <= |row|
    requires IsSquareRoot(root)
    requires forall j :: i + 1 - period <= j <= i ==> row[j] == c
    ensures BandsAt(row, period, k, root, i) == Bands(Num(c), Num(c), Num(c))
  {
    var window := Window(row, period, i);
    assert forall j :: 0 <= j < |window| ==> window[j] == c;
    MeanOfConstant(window, c);
    var squares := SquaredDeviations(window, Mean(window));
    assert forall j :: 0 <= j < |squares| ==> squares[j] == 0.0;
    MeanOfConstant(squares, 0.0);
    assert Variance(window) == 0.0;
    var std := root(0.0);
    assert 0.0 <= std && std * std == 0.0;
    if std > 0.0 {
      ProductNonNegative(std, std);
      assert std * std > 0.0;
    }
  }

  /** No lookahead: the bands at column `i` depend only on prices `0 .. i`. */
  lemma BandsNoLookahead(row: seq<real>, other: seq<real>, period: nat, k: real, root: real -> real, i: nat)
    requires 1 <= period && i < |row| && i < |other|
    requires forall j :: 0 <= j <= i ==> row[j] == other[j]
    ensures BandsAt(row, period, k, root, i) == BandsAt(other, period, k, root, i)
  {
    if period <= i + 1 {
      assert Window(row, period, i) == Window(other, period, i);
    }
  }

  /** The batch kernel: three sentinel-filled matrices of the input's shape, and for
      every column from `period - 1` on, the bands of every row's trailing window. */
  method BollingerBandsBatch(prices: array2<real>, period: nat, k: real, root: real -> real)
    returns (upper: array2<Cell>, middle: array2<Cell>, lower: array2<Cell>)
    requires 1 <= period
    ensures fresh(upper) && fresh(middle) && fresh(lower)
    ensures upper != middle && middle != lower && upper != lower
    ensures upper.Length0 == middle.Length0 == lower.Length0 == prices.Length0
    ensures upper.Length1 == middle.Length1 == lower.Length1 == prices.Length1
    ensures forall r, i :: 0 <= r < prices.Length0 && 0 <= i < prices.Length1 ==>
      Bands(upper[r, i], middle[r, i], lower[r, i]) == BandsAt(Row(prices, r), period, k, root, i)
  {
    var rows, columns := prices.Length0, prices.Length1;
    ghost var history := seq(rows, r requires 0 <= r < rows reads prices => Row(prices, r));
    upper := new Cell[rows, columns]((r, c) => NaN);
    middle := new Cell[rows, columns]((r, c) => NaN);
    lower := new Cell[rows, columns]((r, c) => NaN);
    var i := period - 1;
    while i < columns
      invariant period - 1 <= i && (period - 1 <= columns ==> i <= columns)
      invariant forall r :: 0 <= r < rows ==> Row(prices, r) == history[r]
      invariant forall r, c :: 0 <= r < rows && 0 <= c < columns ==>
        Bands(upper[r, c], middle[r, c], lower[r, c]) ==
          if c < i then BandsAt(history[r], period, k, root, c) else Bands(NaN, NaN, NaN)
    {
      var windowData := seq(rows, r requires 0 <= r < rows reads prices => Window(Row(prices, r), period, i));
      var bands := seq(rows, r requires 0 <= r < rows => WindowBands(windowData[r], k, root));
      SetColumn(middle, i, seq(rows, r requires 0 <= r < rows => bands[r].middle));
      SetColumn(upper, i, seq(rows, r requires 0 <= r < rows => bands[r].upper));
      SetColumn(lower, i, seq(rows, r requires 0 <= r < rows => bands[r].lower));
      i := i + 1;
    }
  }
}
