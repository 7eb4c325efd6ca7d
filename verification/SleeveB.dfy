/** Sleeve B indicators: exponential moving average, daily regime and the Donchian entry signal. */
module SleeveB {
  import opened Prelude
  import opened Market

  datatype EmaError = PeriodMustBePositive

  function Alpha(period: int): real
    requires period > 0
  {
    2.0 / (period + 1) as real
  }

  /** The moving average with smoothing factor alpha at index i of the series. */
  function EmaAt(values: seq<real>, alpha: real, i: nat): real
    requires i < |values|
  {
    if i == 0 then values[0] else alpha * values[i] + (1.0 - alpha) * EmaAt(values, alpha, i - 1)
  }

  method Ema(values: seq<real>, period: int) returns (r: Result<seq<real>, EmaError>)
    ensures period <= 0 ==> r == Failure(PeriodMustBePositive)
    ensures period > 0 ==> r.Success? && |r.value| == |values|
    ensures period > 0 ==> forall i :: 0 <= i < |values| ==> r.value[i] == EmaAt(values, Alpha(period), i)
  {
    if period <= 0 {
      return Failure(PeriodMustBePositive);
    }
    if |values| == 0 {
      return Success([]);
    }
    var alpha := Alpha(period);
    var averages := [values[0]];
    for index := 1 to |values|
      invariant |averages| == index
      invariant forall i :: 0 <= i < index ==> averages[i] == EmaAt(values, alpha, i)
    {
      averages := averages + [alpha * values[index] + (1.0 - alpha) * averages[index - 1]];
    }
    r := Success(averages);
  }

  datatype Regime = InsufficientData | Bull | Bear | Chop {
    function Flip(): Regime {
      match this
      case Bull => Bear
      case Bear => Bull
      case other => other
    }
  }

  function RegimeFromDailyClose(closes: seq<real>): Regime {
    if |closes| < 200 then InsufficientData
    else
      var fast := EmaAt(closes, Alpha(50), |closes| - 1);
      var slow := EmaAt(closes, Alpha(200), |closes| - 1);
      var last := closes[|closes| - 1];
      if last > fast && fast > slow then Bull
      else if last < fast && fast < slow then Bear
      else Chop
  }

  datatype SignalReason = RegimeNoEntry(regime: Regime) | Insufficient4hData | NoEntry | BreakoutLong | BreakdownShort

  datatype Signal = Signal(side: Option<PositionSide>, reason: SignalReason)

  /** The last close clears every high of the lookback bars before it. */
  predicate AboveWindow(bars: seq<Bar>, lookback: int)
    requires 1 <= lookback < |bars|
  {
    forall k :: |bars| - 1 - lookback <= k < |bars| - 1 ==> bars[k].high < bars[|bars| - 1].close
  }

  /** The last close is under every low of the lookback bars before it. */
  predicate BelowWindow(bars: seq<Bar>, lookback: int)
    requires 1 <= lookback < |bars|
  {
    forall k :: |bars| - 1 - lookback <= k < |bars| - 1 ==> bars[k].low > bars[|bars| - 1].close
  }

  function DonchianSignal(regime: Regime, bars: seq<Bar>, lookback: int): Signal
    requires lookback >= 1
  {
    if regime != Bull && regime != Bear then Signal(None, RegimeNoEntry(regime))
    else if |bars| < lookback + 1 then Signal(None, Insufficient4hData)
    else if regime == Bull && AboveWindow(bars, lookback) then Signal(Some(Long), BreakoutLong)
    else if regime == Bear && BelowWindow(bars, lookback) then Signal(Some(Short), BreakdownShort)
    else Signal(None, NoEntry)
  }

  /**
    The side signalled with a lookback below one, which nothing rejects: the window slice [-lookback - 1 : -1] then
    starts at the last bar for zero and counts from the front for a negative one, and an empty window raises.
   */
  function WrappedSide(regime: Regime, bars: seq<Bar>, lookback: int): Result<Option<PositionSide>, MarketError>
    requires lookback < 1 && |bars| > 0
  {
    var last := |bars| - 1;
    var first := if lookback == 0 then last else -lookback - 1;
    if regime != Bull && regime != Bear then Success(None)
    else if first >= last then Failure(EmptyWindow)
    else if regime == Bull && AboveWindow(bars, last - first) then Success(Some(Long))
    else if regime == Bear && BelowWindow(bars, last - first) then Success(Some(Short))
    else Success(None)
  }

  // ---------------------------------------------------------------- breakouts

  function HighestHigh(bars: seq<Bar>): real
    requires |bars| > 0
  {
    if |bars| == 1 then bars[0].high else Max(HighestHigh(bars[..|bars| - 1]), bars[|bars| - 1].high)
  }

  lemma {:induction false} HighestHighIsMax(bars: seq<Bar>, x: real)
    requires |bars| > 0
    ensures HighestHigh(bars) < x <==> forall i :: 0 <= i < |bars| ==> bars[i].high < x
  {
    if |bars| > 1 {
      var init := bars[..|bars| - 1];
      HighestHighIsMax(init, x);
      assert forall i :: 0 <= i < |init| ==> init[i] == bars[i];
    }
  }

  function LowestLow(bars: seq<Bar>): real
    requires |bars| > 0
  {
    if |bars| == 1 then bars[0].low else Min(LowestLow(bars[..|bars| - 1]), bars[|bars| - 1].low)
  }

  lemma {:induction false} LowestLowIsMin(bars: seq<Bar>, x: real)
    requires |bars| > 0
    ensures LowestLow(bars) > x <==> forall i :: 0 <= i < |bars| ==> bars[i].low > x
  {
    if |bars| > 1 {
      var init := bars[..|bars| - 1];
      LowestLowIsMin(init, x);
      assert forall i :: 0 <= i < |init| ==> init[i] == bars[i];
    }
  }

  /** A signal is a close beyond the Donchian channel of exactly the lookback bars before it, in the right regime. */
  lemma DonchianIsChannelBreak(regime: Regime, bars: seq<Bar>, lookback: int)
    requires 1 <= lookback < |bars|
    ensures var channel := bars[|bars| - 1 - lookback..|bars| - 1];
            var close := bars[|bars| - 1].close;
            var side := DonchianSignal(regime, bars, lookback).side;
            && |channel| == lookback
            && (side == Some(Long) <==> regime == Bull && close > HighestHigh(channel))
            && (side == Some(Short) <==> regime == Bear && close < LowestLow(channel))
  {
    var first := |bars| - 1 - lookback;
    var channel := bars[first..|bars| - 1];
    var close := bars[|bars| - 1].close;
    HighestHighIsMax(channel, close);
    LowestLowIsMin(channel, close);
    assert forall i :: first <= i < |bars| - 1 ==> bars[i] == channel[i - first];
    assert forall i :: 0 <= i < |channel| ==> channel[i] == bars[first + i];
  }

  /** Why there is a signal or none: the regime first, then the data, then the channel. */
  lemma DonchianReasons(regime: Regime, bars: seq<Bar>, lookback: int)
    requires lookback >= 1
    ensures var s := DonchianSignal(regime, bars, lookback);
            && (s.reason == BreakoutLong <==> s.side == Some(Long))
            && (s.reason == BreakdownShort <==> s.side == Some(Short))
            && (s.reason == RegimeNoEntry(regime) <==> regime !in {Bull, Bear})
            && (s.reason == Insufficient4hData <==> regime in {Bull, Bear} && |bars| <= lookback)
  {
  }

  /** With a negative lookback the channel is what is left after dropping the first -lookback - 1 bars and the last one. */
  lemma WrappedIsChannelBreak(regime: Regime, bars: seq<Bar>, lookback: int)
    requires lookback < 0 && -lookback - 1 < |bars| - 1
    ensures var channel := bars[-lookback - 1..|bars| - 1];
            var close := bars[|bars| - 1].close;
            var r := WrappedSide(regime, bars, lookback);
            && r.Success?
            && (r.value == Some(Long) <==> regime == Bull && close > HighestHigh(channel))
            && (r.value == Some(Short) <==> regime == Bear && close < LowestLow(channel))
  {
    DonchianIsChannelBreak(regime, bars, |bars| + lookback);
  }

  // ---------------------------------------------------------------- moving averages

  ghost predicate Rising(values: seq<real>) {
    forall i :: 0 < i < |values| ==> values[i - 1] < values[i]
  }

  ghost predicate Falling(values: seq<real>) {
    forall i :: 0 < i < |values| ==> values[i - 1] > values[i]
  }

  function Power(x: real, n: nat): real {
    if n == 0 then 1.0 else x * Power(x, n - 1)
  }

  /** The weight of value j in the average at index i: geometric in its age, the first value taking all that is left. */
  function Weight(alpha: real, i: nat, j: nat): real
    requires j <= i
  {
    if j == 0 then Power(1.0 - alpha, i) else alpha * Power(1.0 - alpha, i - j)
  }

  function Weighted(alpha: real, i: nat, j: nat, value: real): real
    requires j <= i
  {
    Weight(alpha, i, j) * value
  }

  /** What one more step leaves of an older contribution. */
  function Decayed(alpha: real, x: real): real {
    (1.0 - alpha) * x
  }

  /** The first n weighted values of the average at index i. */
  function WeightedValues(values: seq<real>, alpha: real, i: nat, n: nat): (r: seq<real>)
    requires n <= i + 1 && i < |values|
    ensures |r| == n
  {
    seq(n, j requires 0 <= j < n => Weighted(alpha, i, j, values[j]))
  }

  lemma {:induction false} OlderWeights(values: seq<real>, alpha: real, i: nat, n: nat)
    requires 0 < i < |values| && n <= i
    ensures Sum(WeightedValues(values, alpha, i, n)) == Decayed(alpha, Sum(WeightedValues(values, alpha, i - 1, n)))
  {
    hide Weighted, Decayed;
    if n > 0 {
      OlderWeights(values, alpha, i, n - 1);
      var newer, older := WeightedValues(values, alpha, i, n), WeightedValues(values, alpha, i - 1, n);
      OneWeight(alpha, i, n - 1, values[n - 1]);
      assert newer == WeightedValues(values, alpha, i, n - 1) + [newer[n - 1]];
      assert older == WeightedValues(values, alpha, i - 1, n - 1) + [older[n - 1]];
      SumNext(WeightedValues(values, alpha, i, n - 1), newer[n - 1]);
      SumNext(WeightedValues(values, alpha, i - 1, n - 1), older[n - 1]);
      DecayedSum(alpha, Sum(WeightedValues(values, alpha, i - 1, n - 1)), older[n - 1]);
    } else {
      assert WeightedValues(values, alpha, i, 0) == [] == WeightedValues(values, alpha, i - 1, 0);
      DecayedSum(alpha, 0.0, 0.0);
    }
  }

  lemma DecayedSum(alpha: real, a: real, b: real)
    ensures Decayed(alpha, a + b) == Decayed(alpha, a) + Decayed(alpha, b)
  {
  }

  lemma OneWeight(alpha: real, i: nat, j: nat, value: real)
    requires j < i
    ensures Weighted(alpha, i, j, value) == Decayed(alpha, Weighted(alpha, i - 1, j, value))
  {
    var age := if j == 0 then i else i - j;
    assert Power(1.0 - alpha, age) == (1.0 - alpha) * Power(1.0 - alpha, age - 1);
    hide Power;
    Regroup(1.0 - alpha, alpha, Power(1.0 - alpha, age - 1), value);
  }

  lemma Regroup(b: real, a: real, p: real, v: real)
    ensures (b * p) * v == b * (p * v)
    ensures (a * (b * p)) * v == b * ((a * p) * v)
  {
  }

  /** The average written out: the sum of the values seen so far with their geometric weights. */
  lemma {:induction false} EmaIsWeightedSum(values: seq<real>, alpha: real, i: nat)
    requires i < |values|
    ensures EmaAt(values, alpha, i) == Sum(WeightedValues(values, alpha, i, i + 1))
  {
    var all := WeightedValues(values, alpha, i, i + 1);
    assert all == all[..i] + [all[i]];
    SumNext(all[..i], all[i]);
    if i > 0 {
      EmaIsWeightedSum(values, alpha, i - 1);
      OlderWeights(values, alpha, i, i);
      assert all[..i] == WeightedValues(values, alpha, i, i);
      assert Weight(alpha, i, i) == alpha;
    } else {
      assert all[..0] == [];
      assert all[0] == values[0];
    }
  }

  /** The average of a whole series, as a weighted sum. */
  function WeightedAverage(values: seq<real>, alpha: real): real
    requires |values| > 0
  {
    Sum(WeightedValues(values, alpha, |values| - 1, |values|))
  }

  /**
    The regime of any series: it takes 200 closes, BULL is the last close above the 50-day average above the 200-day
    one, BEAR the reverse, and everything else is CHOP.
   */
  ghost predicate RegimeOf(closes: seq<real>, regime: Regime) {
    if |closes| < 200 then regime == InsufficientData
    else
      var last := closes[|closes| - 1];
      var fast, slow := WeightedAverage(closes, 2.0 / 51.0), WeightedAverage(closes, 2.0 / 201.0);
      && (regime == Bull <==> last > fast > slow)
      && (regime == Bear <==> last < fast < slow)
      && regime != InsufficientData
  }

  lemma RegimeIff(closes: seq<real>)
    ensures RegimeOf(closes, RegimeFromDailyClose(closes))
  {
    if |closes| >= 200 {
      EmaIsWeightedSum(closes, 2.0 / 51.0, |closes| - 1);
      EmaIsWeightedSum(closes, 2.0 / 201.0, |closes| - 1);
      assert Alpha(50) == 2.0 / 51.0 && Alpha(200) == 2.0 / 201.0;
    }
  }

  method ComputeRegime(closes: seq<real>) returns (regime: Regime)
    ensures regime == RegimeFromDailyClose(closes)
    ensures RegimeOf(closes, regime)
  {
    RegimeIff(closes);
    if |closes| < 200 {
      return InsufficientData;
    }
    var e50 := Ema(closes, 50);
    var e200 := Ema(closes, 200);
    hide RegimeOf;
    var fast, slow, last := e50.value[|closes| - 1], e200.value[|closes| - 1], closes[|closes| - 1];
    if last > fast && fast > slow {
      return Bull;
    }
    if last < fast && fast < slow {
      return Bear;
    }
    regime := Chop;
  }

  /** A rebound that does not clear the slow average of what came before is never BULL, and the mirror image never BEAR. */
  lemma ReboundIsNotTrend(closes: seq<real>, last: real)
    requires |closes| > 0
    ensures last <= EmaAt(closes, Alpha(200), |closes| - 1) ==> RegimeFromDailyClose(closes + [last]) != Bull
    ensures last >= EmaAt(closes, Alpha(200), |closes| - 1) ==> RegimeFromDailyClose(closes + [last]) != Bear
  {
    var n, a, longer := |closes| - 1, Alpha(200), closes + [last];
    EmaOfPrefix(closes, longer, a, n);
    var slow := EmaAt(closes, a, n);
    MixBetween(a, last, slow, Min(last, slow), Max(last, slow));
  }

  lemma {:induction false} EmaOfPrefix(values: seq<real>, longer: seq<real>, alpha: real, i: nat)
    requires values <= longer && i < |values|
    ensures EmaAt(values, alpha, i) == EmaAt(longer, alpha, i)
  {
    if i > 0 {
      EmaOfPrefix(values, longer, alpha, i - 1);
    }
  }

  /** Every average lies within the range of the closes seen so far. */
  lemma {:induction false} EmaWithinRange(values: seq<real>, alpha: real, i: nat, lo: real, hi: real)
    requires 0.0 <= alpha <= 1.0 && i < |values|
    requires forall j :: 0 <= j <= i ==> lo <= values[j] <= hi
    ensures lo <= EmaAt(values, alpha, i) <= hi
  {
    if i > 0 {
      EmaWithinRange(values, alpha, i - 1, lo, hi);
      MixBetween(alpha, values[i], EmaAt(values, alpha, i - 1), lo, hi);
    }
  }

  /** A convex mix of two values stays between any bounds of both. */
  lemma MixBetween(a: real, x: real, y: real, lo: real, hi: real)
    requires 0.0 <= a <= 1.0
    requires lo <= x <= hi && lo <= y <= hi
    ensures lo <= a * x + (1.0 - a) * y <= hi
  {
    ProductNonNegative(a, x - lo);
    ProductNonNegative(1.0 - a, y - lo);
    ProductNonNegative(a, hi - x);
    ProductNonNegative(1.0 - a, hi - y);
    assert a * x + (1.0 - a) * y - lo == a * (x - lo) + (1.0 - a) * (y - lo);
    assert hi - (a * x + (1.0 - a) * y) == a * (hi - x) + (1.0 - a) * (hi - y);
  }

  /** x mixed with something strictly below it stays strictly below x. */
  lemma MixBelow(a: real, x: real, y: real)
    requires 0.0 < a < 1.0 && y < x
    ensures a * x + (1.0 - a) * y < x
  {
    var gap := ProductPositive(1.0 - a, x - y);
    assert a * x + (1.0 - a) * y == x - gap;
  }

  /** Weighting the newer, higher price more, from a start at least as high, ends strictly higher. */
  lemma MixOrdered(a: real, b: real, x: real, y: real, z: real)
    requires 0.0 < b < a < 1.0
    requires z <= y < x
    ensures b * x + (1.0 - b) * z < a * x + (1.0 - a) * y
  {
    var gap := ProductPositive(a - b, x - y);
    ProductNonNegative(1.0 - b, y - z);
    assert (a * x + (1.0 - a) * y) - (b * x + (1.0 - b) * z) == gap + (1.0 - b) * (y - z);
  }

  /**
    On a rising series the faster average is strictly above the slower one and strictly below
    the last close, whatever the two smoothing factors are.
   */
  lemma {:induction false} RisingSeparatesAverages(values: seq<real>, fast: real, slow: real, i: nat)
    requires Rising(values) && i < |values|
    requires 0.0 < slow < fast < 1.0
    ensures i > 0 ==> EmaAt(values, slow, i) < EmaAt(values, fast, i) < values[i]
  {
    if i > 0 {
      RisingSeparatesAverages(values, fast, slow, i - 1);
      var x, y, z := values[i], EmaAt(values, fast, i - 1), EmaAt(values, slow, i - 1);
      MixBelow(fast, x, y);
      MixOrdered(fast, slow, x, y, z);
    }
  }

  lemma RisingIsBull(closes: seq<real>)
    requires |closes| >= 200 && Rising(closes)
    ensures RegimeFromDailyClose(closes) == Bull
  {
    RisingSeparatesAverages(closes, Alpha(50), Alpha(200), |closes| - 1);
  }

  // ---------------------------------------------------------------- reflection

  function ReflectValues(c: real, values: seq<real>): (r: seq<real>)
    ensures |r| == |values|
    ensures forall i :: 0 <= i < |values| ==> r[i] == c - values[i]
  {
    seq(|values|, i requires 0 <= i < |values| => c - values[i])
  }

  lemma {:induction false} EmaReflect(c: real, values: seq<real>, alpha: real, i: nat)
    requires i < |values|
    ensures EmaAt(ReflectValues(c, values), alpha, i) == c - EmaAt(values, alpha, i)
  {
    if i > 0 {
      EmaReflect(c, values, alpha, i - 1);
      var a, x, y := alpha, values[i], EmaAt(values, alpha, i - 1);
      assert a * (c - x) + (1.0 - a) * (c - y) == c - (a * x + (1.0 - a) * y);
    }
  }

  /** Reflecting every close swaps BULL and BEAR and keeps the other two regimes. */
  lemma RegimeReflect(c: real, closes: seq<real>)
    ensures RegimeFromDailyClose(ReflectValues(c, closes)) == RegimeFromDailyClose(closes).Flip()
  {
    if |closes| >= 200 {
      EmaReflect(c, closes, Alpha(50), |closes| - 1);
      EmaReflect(c, closes, Alpha(200), |closes| - 1);
    }
  }

  lemma FallingIsBear(closes: seq<real>)
    requires |closes| >= 200 && Falling(closes)
    ensures RegimeFromDailyClose(closes) == Bear
  {
    RegimeReflect(0.0, closes);
    RisingIsBull(ReflectValues(0.0, closes));
  }

  /** A breakout of the reflected bars in the swapped regime is the same breakout on the other side. */
  lemma DonchianReflect(c: real, regime: Regime, bars: seq<Bar>, lookback: int)
    requires lookback >= 1
    ensures var mirrored := DonchianSignal(regime.Flip(), ReflectBars(c, bars), lookback).side;
            var original := DonchianSignal(regime, bars, lookback).side;
            mirrored == if original.Some? then Some(original.value.Flip()) else None
  {
    if |bars| >= lookback + 1 {
      var mirror := ReflectBars(c, bars);
      assert AboveWindow(mirror, lookback) <==> BelowWindow(bars, lookback);
      assert BelowWindow(mirror, lookback) <==> AboveWindow(bars, lookback);
    }
  }

  /** A signal can only fire when the last close moved, so the stop distance it leads to is positive. */
  lemma SignalImpliesPositiveAtr(regime: Regime, bars: seq<Bar>, lookback: int, period: int)
    requires lookback >= 1 && 1 <= period < |bars|
    requires WellFormedBars(bars)
    requires DonchianSignal(regime, bars, lookback).side.Some?
    ensures Atr(bars, period).Success? && Atr(bars, period).value > 0.0
  {
    assert bars[|bars| - 2].WellFormed();
    AtrPositiveOnMove(bars, period);
  }
}
