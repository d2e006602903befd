/** The MACD kernel (`macd_batch`): the fast EMA minus the slow EMA (the MACD
    line), an EMA of that line (the signal line), and their difference (the
    histogram). It is a composition of three EMA kernel calls. */
module MacdKernel {
  import opened Common
  import opened EmaKernel

  /** The three MACD series of one row. */
  datatype Macd = Macd(line: seq<real>, signal: seq<real>, histogram: seq<real>)

  /** The MACD line of one row: fast EMA minus slow EMA, column by column. */
  function MacdLine(row: seq<real>, fast: nat, slow: nat): (line: seq<real>)
    ensures |line| == |row|
  {
    var fastEma, slowEma := EmaRow(row, Alpha(fast)), EmaRow(row, Alpha(slow));
    seq(|row|, i requires 0 <= i < |row| => fastEma[i] - slowEma[i])
  }

  /** The three series of one row, as `macd_batch` composes them. */
  function MacdOfRow(row: seq<real>, fast: nat, slow: nat, signal: nat): (macd: Macd)
    ensures |macd.line| == |macd.signal| == |macd.histogram| == |row|
  {
    var line := MacdLine(row, fast, slow);
    var signalLine := EmaRow(line, Alpha(signal));
    Macd(line, signalLine, seq(|row|, i requires 0 <= i < |row| => line[i] - signalLine[i]))
  }

  /** Both EMAs are seeded with the first price, so every series starts at 0. */
  lemma MacdStartsAtZero(row: seq<real>, fast: nat, slow: nat, signal: nat)
    requires |row| > 0
    ensures var macd := MacdOfRow(row, fast, slow, signal);
      macd.line[0] == 0.0 && macd.signal[0] == 0.0 && macd.histogram[0] == 0.0
  {
  }

  /** A line whose every value is 0 has a signal line and histogram of 0. */
  lemma ZeroLineHasZeroSignal(row: seq<real>, fast: nat, slow: nat, signal: nat)
    requires forall i :: 0 <= i < |row| ==> MacdLine(row, fast, slow)[i] == 0.0
    ensures var macd := MacdOfRow(row, fast, slow, signal);
      forall i :: 0 <= i < |row| ==> macd.line[i] == 0.0 && macd.signal[i] == 0.0 && macd.histogram[i] == 0.0
  {
    var line := MacdLine(row, fast, slow);
    forall i | 0 <= i < |row|
      ensures EmaAt(line, Alpha(signal), i) == 0.0
    {
      EmaOfConstant(line, Alpha(signal), i, 0.0);
    }
  }

  /** Equal fast and slow periods make the two EMAs coincide, and all three series
      are identically 0. */
  lemma EqualPeriodsGiveZeroMacd(row: seq<real>, period: nat, signal: nat)
    ensures var macd := MacdOfRow(row, period, period, signal);
      forall i :: 0 <= i < |row| ==> macd.line[i] == 0.0 && macd.signal[i] == 0.0 && macd.histogram[i] == 0.0
  {
    ZeroLineHasZeroSignal(row, period, period, signal);
  }

  /** A flat price row has equal fast and slow EMAs, so all three series are 0. */
  lemma ConstantRowGivesZeroMacd(row: seq<real>, fast: nat, slow: nat, signal: nat)
    requires forall j :: 0 <= j < |row| ==> row[j] == row[0]
    ensures var macd := MacdOfRow(row, fast, slow, signal);
      forall i :: 0 <= i < |row| ==> macd.line[i] == 0.0 && macd.signal[i] == 0.0 && macd.histogram[i] == 0.0
  {
    forall i | 0 <= i < |row|
      ensures MacdLine(row, fast, slow)[i] == 0.0
    {
      EmaOfConstant(row, Alpha(fast), i, row[0]);
      EmaOfConstant(row, Alpha(slow), i, row[0]);
    }
    ZeroLineHasZeroSignal(row, fast, slow, signal);
  }

  /** A signal period of 1 makes the signal line equal to the MACD line, and the
      histogram 0. */
  lemma SignalPeriodOneTracksLine(row: seq<real>, fast: nat, slow: nat)
    ensures var macd := MacdOfRow(row, fast, slow, 1);
      macd.signal == macd.line && forall i :: 0 <= i < |row| ==> macd.histogram[i] == 0.0
  {
    EmaOfPeriodOneIsIdentity(MacdLine(row, fast, slow));
  }

  /** No lookahead: all three series at column `i` depend only on prices `0 .. i`. */
  lemma MacdNoLookahead(row: seq<real>, other: seq<real>, fast: nat, slow: nat, signal: nat, i: nat)
    requires i < |row| && i < |other|
    requires forall j :: 0 <= j <= i ==> row[j] == other[j]
    ensures var macd, macd' := MacdOfRow(row, fast, slow, signal), MacdOfRow(other, fast, slow, signal);
      macd.line[i] == macd'.line[i] && macd.signal[i] == macd'.signal[i] && macd.histogram[i] == macd'.histogram[i]
  {
    var line, line' := MacdLine(row, fast, slow), MacdLine(other, fast, slow);
    forall j | 0 <= j <= i
      ensures line[j] == line'[j]
    {
      EmaNoLookahead(row, other, Alpha(fast), j);
      EmaNoLookahead(row, other, Alpha(slow), j);
    }
    EmaNoLookahead(line, line', Alpha(signal), i);
  }

  /** The three result matrices of `macd_batch`. Every cell of all three holds a
      value: the EMA seed leaves no sentinel behind. */
  datatype MacdMatrices = MacdMatrices(line: array2<real>, signal: array2<real>, histogram: array2<real>)

  /** The batch kernel. A matrix without columns makes the first EMA call fail;
      otherwise every row's three series are those of `MacdOfRow`, and the
      histogram is the line minus the signal cell by cell. */
  method MacdBatch(prices: array2<real>, fast: nat, slow: nat, signal: nat) returns (res: Result<MacdMatrices>)
    ensures res.Err? <==> prices.Length1 == 0
    ensures res.Err? ==> res.error == ColumnOutOfRange(0, 0)
    ensures res.Ok? ==>
      var out := res.value;
      fresh(out.line) && fresh(out.signal) && fresh(out.histogram) &&
      out.line != out.signal && out.signal != out.histogram && out.line != out.histogram &&
      out.line.Length0 == out.signal.Length0 == out.histogram.Length0 == prices.Length0 &&
      out.line.Length1 == out.signal.Length1 == out.histogram.Length1 == prices.Length1 &&
      forall r, i :: 0 <= r < prices.Length0 && 0 <= i < prices.Length1 ==>
        out.histogram[r, i] == out.line[r, i] - out.signal[r, i] &&
        out.line[r, i] == MacdOfRow(Row(prices, r), fast, slow, signal).line[i] &&
        out.signal[r, i] == MacdOfRow(Row(prices, r), fast, slow, signal).signal[i] &&
        out.histogram[r, i] == MacdOfRow(Row(prices, r), fast, slow, signal).histogram[i]
  {
    var rows := prices.Length0;
    var fastResult := EmaBatch(prices, fast);
    if fastResult.Err? {
      return Err(fastResult.error);
    }
    // Once the first call has succeeded the matrix has a column 0, so the
    // other two calls succeed as well.
    var slowResult := EmaBatch(prices, slow);
    var fastEma := Values(fastResult.value);
    var slowEma := Values(slowResult.value);
    var line := Subtract(fastEma, slowEma);
    forall r | 0 <= r < rows
      ensures Row(line, r) == MacdLine(Row(prices, r), fast, slow)
    {
    }
    var signalResult := EmaBatch(line, signal);
    var signalLine := Values(signalResult.value);
    var histogram := Subtract(line, signalLine);
    return Ok(MacdMatrices(line, signalLine, histogram));
  }

  /** The values of a matrix whose every cell holds one, as a fresh matrix. */
  method Values(m: array2<Cell>) returns (values: array2<real>)
    requires forall r, c :: 0 <= r < m.Length0 && 0 <= c < m.Length1 ==> m[r, c].Num?
    ensures fresh(values) && values.Length0 == m.Length0 && values.Length1 == m.Length1
    ensures forall r, c :: 0 <= r < m.Length0 && 0 <= c < m.Length1 ==> Num(values[r, c]) == m[r, c]
  {
    values := new real[m.Length0, m.Length1];
    forall r, c | 0 <= r < m.Length0 && 0 <= c < m.Length1 {
      values[r, c] := m[r, c].value;
    }
  }

  /** Element-wise `a - b` of two matrices of the same shape, as a fresh matrix. */
  method Subtract(a: array2<real>, b: array2<real>) returns (difference: array2<real>)
    requires a.Length0 == b.Length0 && a.Length1 == b.Length1
    ensures fresh(difference) && difference.Length0 == a.Length0 && difference.Length1 == a.Length1
    ensures forall r, c :: 0 <= r < a.Length0 && 0 <= c < a.Length1 ==> difference[r, c] == a[r, c] - b[r, c]
  {
    difference := new real[a.Length0, a.Length1];
    forall r, c | 0 <= r < a.Length0 && 0 <= c < a.Length1 {
      difference[r, c] := a[r, c] - b[r, c];
    }
  }
}
