/** Shared vocabulary of the indicator kernels: the "not a number" sentinel that
    marks cells still in an indicator's warm-up, the one error the kernels raise,
    the rows of a price matrix, and sums and means of a window of prices. */
module Common {

  /** One output cell: `NaN` is the sentinel the kernels pre-fill their outputs
      with ("insufficient history"); `Num` is a computed value. */
  datatype Cell = NaN | Num(value: real)

  /** Writing or reading a column that does not exist (an IndexError in the source). */
  datatype Error = ColumnOutOfRange(index: nat, columns: nat)

  datatype Result<T> = Ok(value: T) | Err(error: Error)

  /** Row `r` of a matrix (the price history of one symbol), oldest price first. */
  function Row(a: array2<real>, r: nat): (row: seq<real>)
    requires r < a.Length0
    reads a
    ensures |row| == a.Length1
    ensures forall j :: 0 <= j < |row| ==> row[j] == a[r, j]
  {
    seq(a.Length1, j requires 0 <= j < a.Length1 reads a => a[r, j])
  }

  /** The total of a window, added up from the oldest element. */
  function Sum(s: seq<real>): real
  {
    if |s| == 0 then 0.0 else Sum(s[..|s| - 1]) + s[|s| - 1]
  }

  /** The arithmetic mean `cp.mean` takes of a non-empty window. */
  function Mean(s: seq<real>): (m: real)
    requires |s| > 0
    ensures m * (|s| as real) == Sum(s)
  {
    Sum(s) / (|s| as real)
  }

  /** The product of two non-negative reals is non-negative. */
  lemma ProductNonNegative(a: real, b: real)
    requires 0.0 <= a && 0.0 <= b
    ensures 0.0 <= a * b
  {
  }

  /** The product of two positive reals is positive. */
  lemma ProductPositive(a: real, b: real)
    requires 0.0 < a && 0.0 < b
    ensures 0.0 < a * b
  {
  }

  /** A square is non-negative. */
  lemma SquareNonNegative(x: real)
    ensures 0.0 <= x * x
  {
  }

  lemma {:induction false} SumAtLeast(s: seq<real>, lo: real)
    requires forall j :: 0 <= j < |s| ==> lo <= s[j]
    ensures (|s| as real) * lo <= Sum(s)
  {
    if |s| > 0 {
      SumAtLeast(s[..|s| - 1], lo);
    }
  }

  lemma {:induction false} SumAtMost(s: seq<real>, hi: real)
    requires forall j :: 0 <= j < |s| ==> s[j] <= hi
    ensures Sum(s) <= (|s| as real) * hi
  {
    if |s| > 0 {
      SumAtMost(s[..|s| - 1], hi);
    }
  }

  /** A mean is never below a lower bound of all its elements. */
  lemma MeanAtLeast(s: seq<real>, lo: real)
    requires |s| > 0
    requires forall j :: 0 <= j < |s| ==> lo <= s[j]
    ensures lo <= Mean(s)
  {
    SumAtLeast(s, lo);
    var n := |s| as real;
    assert n * lo <= Sum(s);
    assert lo == (n * lo) / n;
  }

  /** A mean is never above an upper bound of all its elements. */
  lemma MeanAtMost(s: seq<real>, hi: real)
    requires |s| > 0
    requires forall j :: 0 <= j < |s| ==> s[j] <= hi
    ensures Mean(s) <= hi
  {
    SumAtMost(s, hi);
    var n := |s| as real;
    assert Sum(s) <= n * hi;
    assert hi == (n * hi) / n;
  }

  /** The mean of a window whose every element is `c` is exactly `c`. */
  lemma MeanOfConstant(s: seq<real>, c: real)
    requires |s| > 0
    requires forall j :: 0 <= j < |s| ==> s[j] == c
    ensures Mean(s) == c
  {
    MeanAtLeast(s, c);
    MeanAtMost(s, c);
  }

  /** Column assignment `m[:, i] = column`: every row's cell in column `i` is
      replaced, every other cell is left as it was. */
  method SetColumn(m: array2<Cell>, i: nat, column: seq<Cell>)
    requires i < m.Length1 && |column| == m.Length0
    modifies m
    ensures forall r, c :: 0 <= r < m.Length0 && 0 <= c < m.Length1 ==>
      m[r, c] == if c == i then column[r] else old(m[r, c])
  {
    forall r | 0 <= r < m.Length0 {
      m[r, i] := column[r];
    }
  }
}
