/** Bars, sides and the average true range shared by the replay and the candidate builder. */
module Market {
  import opened Prelude

  datatype PositionSide = Long | Short {
    function Flip(): PositionSide {
      if Long? then Short else Long
    }
  }

  /** Timestamps are only ever compared, so an ordered integer stands for the sortable string. */
  datatype Bar = Bar(timestamp: int, open: real, high: real, low: real, close: real) {
    predicate WellFormed() {
      0.0 < low && low <= open <= high && low <= close <= high
    }
  }

  ghost predicate WellFormedBars(bars: seq<Bar>) {
    forall i :: 0 <= i < |bars| ==> bars[i].WellFormed()
  }

  datatype MarketError = InsufficientBarsForAtr | NonPositiveStopDistance | DivisionByZero | EmptyWindow | IndexOutOfRange

  function Notional(quantity: real, price: real): real {
    quantity * price
  }

  function TrueRange(bars: seq<Bar>, i: nat): real
    requires 1 <= i < |bars|
  {
    var previousClose := bars[i - 1].close;
    Max(Max(bars[i].high - bars[i].low, Abs(bars[i].high - previousClose)), Abs(bars[i].low - previousClose))
  }

  /** Sum of the true ranges at the indices from lo up to but not including hi. */
  function TrueRangeSum(bars: seq<Bar>, lo: nat, hi: nat): real
    requires 1 <= lo && hi <= |bars|
    decreases hi
  {
    if hi <= lo then 0.0 else TrueRangeSum(bars, lo, hi - 1) + TrueRange(bars, hi - 1)
  }

  /** The value _atr returns; a period of zero divides by zero, a negative one averages nothing. */
  function Atr(bars: seq<Bar>, period: int): Result<real, MarketError> {
    if |bars| < period + 1 then Failure(InsufficientBarsForAtr)
    else if period == 0 then Failure(DivisionByZero)
    else if period < 0 then Success(0.0)
    else Success(TrueRangeSum(bars, |bars| - period, |bars|) / period as real)
  }

  method ComputeAtr(bars: seq<Bar>, period: int) returns (r: Result<real, MarketError>)
    ensures r == Atr(bars, period)
  {
    if |bars| < period + 1 {
      return Failure(InsufficientBarsForAtr);
    }
    if period < 0 {
      return Success(0.0);
    }
    var total := 0.0;
    for index := |bars| - period to |bars|
      invariant total == TrueRangeSum(bars, |bars| - period, index)
    {
      total := total + TrueRange(bars, index);
    }
    r := if period == 0 then Failure(DivisionByZero) else Success(total / period as real);
  }

  lemma {:induction false} TrueRangeSumNonNegative(bars: seq<Bar>, lo: nat, hi: nat)
    requires WellFormedBars(bars)
    requires 1 <= lo && hi <= |bars|
    ensures TrueRangeSum(bars, lo, hi) >= 0.0
    decreases hi
  {
    if hi > lo {
      TrueRangeSumNonNegative(bars, lo, hi - 1);
      assert bars[hi - 1].WellFormed();
    }
  }

  /** A last close different from the previous one forces a positive average true range. */
  lemma AtrPositiveOnMove(bars: seq<Bar>, period: int)
    requires WellFormedBars(bars)
    requires 1 <= period < |bars|
    requires bars[|bars| - 1].close != bars[|bars| - 2].close
    ensures Atr(bars, period).Success? && Atr(bars, period).value > 0.0
  {
    var last := |bars| - 1;
    TrueRangeSumNonNegative(bars, |bars| - period, last);
    assert bars[last].WellFormed();
    assert TrueRange(bars, last) > 0.0;
    hide TrueRange;
    var total := TrueRangeSum(bars, |bars| - period, |bars|);
    assert total > 0.0;
    hide TrueRangeSum;
    QuotientSign(total, period as real);
  }

  /** The true range is the height of the bar once it is stretched to reach the previous close. */
  lemma TrueRangeIsExtent(bars: seq<Bar>, i: nat)
    requires 1 <= i < |bars| && bars[i].low <= bars[i].high
    ensures TrueRange(bars, i)
         == Max(bars[i].high, bars[i - 1].close) - Min(bars[i].low, bars[i - 1].close)
  {
  }

  /** The true ranges of the last period bars, oldest first. */
  function LastRanges(bars: seq<Bar>, period: nat): (r: seq<real>)
    requires period < |bars|
    ensures |r| == period
  {
    seq(period, k requires 0 <= k < period => TrueRange(bars, |bars| - period + k))
  }

  lemma {:induction false} TrueRangeSumIsSum(bars: seq<Bar>, period: nat, n: nat)
    requires n <= period < |bars|
    ensures TrueRangeSum(bars, |bars| - period, |bars| - period + n) == Sum(LastRanges(bars, period)[..n])
  {
    if n > 0 {
      TrueRangeSumIsSum(bars, period, n - 1);
      var ranges := LastRanges(bars, period);
      assert ranges[..n] == ranges[..n - 1] + [ranges[n - 1]];
      SumNext(ranges[..n - 1], ranges[n - 1]);
    }
  }

  /** The ATR is the plain mean of the last period true ranges; it fails exactly when there are not that many, or none. */
  lemma AtrIsMean(bars: seq<Bar>, period: int)
    ensures |bars| <= period <==> Atr(bars, period) == Failure(InsufficientBarsForAtr)
    ensures period == 0 < |bars| <==> Atr(bars, period) == Failure(DivisionByZero)
    ensures 0 < period < |bars| ==> Atr(bars, period) == Success(Sum(LastRanges(bars, period)) / period as real)
  {
    if 0 < period < |bars| {
      TrueRangeSumIsSum(bars, period, period);
      assert LastRanges(bars, period)[..period] == LastRanges(bars, period);
      hide TrueRangeSum, LastRanges, Sum;
    }
  }

  lemma {:induction false} TrueRangeSumReflect(c: real, bars: seq<Bar>, lo: nat, hi: nat)
    requires 1 <= lo && hi <= |bars|
    ensures TrueRangeSum(ReflectBars(c, bars), lo, hi) == TrueRangeSum(bars, lo, hi)
    decreases hi
  {
    if hi > lo {
      TrueRangeSumReflect(c, bars, lo, hi - 1);
    }
  }

  /** Every price p becomes c - p; highs and lows change places. */
  function Reflect(c: real, bar: Bar): Bar {
    Bar(bar.timestamp, c - bar.open, c - bar.low, c - bar.high, c - bar.close)
  }

  function ReflectBars(c: real, bars: seq<Bar>): (r: seq<Bar>)
    ensures |r| == |bars|
    ensures forall i :: 0 <= i < |bars| ==> r[i] == Reflect(c, bars[i])
  {
    seq(|bars|, i requires 0 <= i < |bars| => Reflect(c, bars[i]))
  }

  lemma AtrReflect(c: real, bars: seq<Bar>, period: int)
    ensures Atr(ReflectBars(c, bars), period) == Atr(bars, period)
  {
    if 0 < period < |bars| {
      TrueRangeSumReflect(c, bars, |bars| - period, |bars|);
    }
  }
}
