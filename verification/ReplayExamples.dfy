/** A replay whose trade hits its first target and still loses. */
module ReplayExamples {
  import opened Prelude
  import opened Market
  import opened SleeveB
  import opened SleeveBReplay
  import opened TradeLadder
  import opened ReplayTheorems

  /** The shortest lookbacks; everything else is the default. */
  const EXAMPLE_CONFIG := DEFAULT_CONFIG.(lookback := 1, atrPeriod := 1)

  /** Two hundred rising days, stamped before every 4H bar. */
  const RISING_DAYS: seq<Bar> :=
    seq(200, i requires 0 <= i < 200 =>
      Bar(i, i as real + 1.0, i as real + 1.0, i as real + 1.0, i as real + 1.0))

  /** A breakout at index 2, then one bar that reaches TP1 and closes near its low as the data ends. */
  const LOSING_BARS: seq<Bar> := [
    Bar(200, 100.0, 101.0, 99.0, 100.0),
    Bar(201, 100.0, 101.0, 99.0, 100.0),
    Bar(202, 100.0, 104.0, 100.0, 104.0),
    Bar(203, 104.0, 119.0, 95.0, 95.0)]

  lemma RisingDaysAreBull(now: int)
    requires now >= 200
    ensures RegimeFromDailyClose(DailyClosesUntil(RISING_DAYS, now)) == Bull
  {
    DailyClosesArePrefix(RISING_DAYS, 200, now);
    hide DailyClosesUntil, RegimeFromDailyClose;
    RisingIsBull(DailyClosesUntil(RISING_DAYS, now));
  }

  lemma SignalsOnlyAtTwo()
    ensures SideAt(RISING_DAYS, LOSING_BARS, 2, EXAMPLE_CONFIG) == Some(Long)
    ensures SideAt(RISING_DAYS, LOSING_BARS, 3, EXAMPLE_CONFIG) == None
  {
    RisingDaysAreBull(202);
    RisingDaysAreBull(203);
    hide RegimeFromDailyClose, DailyClosesUntil;
    assert LOSING_BARS[..3][1] == LOSING_BARS[1] && LOSING_BARS[..3][2] == LOSING_BARS[2];
    assert LOSING_BARS[..4][2] == LOSING_BARS[2] && LOSING_BARS[..4][3] == LOSING_BARS[3];
    assert !AboveWindow(LOSING_BARS[..4], 1);
  }

  lemma LosingTrade()
    ensures var r := Simulate("BTCUSDT", Long, LOSING_BARS, 2, EXAMPLE_CONFIG);
            && r.Success? && r.value.barsHeld == 1
            && r.value.tpHits == [TP1] && r.value.exitReason == EndOfData && r.value.realizedPnl < 0.0
  {
    var cfg, bars := EXAMPLE_CONFIG, LOSING_BARS;
    assert |bars[..3]| == 3 && bars[..3][2] == bars[2] && bars[..3][1] == bars[1];
    assert TrueRange(bars[..3], 2) == 4.0;
    assert TrueRangeSum(bars[..3], 2, 3) == 4.0;
    assert Atr(bars[..3], 1) == Success(4.0);
    var p := PlanAt(Long, 104.0, 10.0, cfg);
    assert MakePlan(Long, bars, 2, cfg) == Success(p);
    assert EntryQuantity(cfg, 10.0, 104.0) == 80.0;
    PlanIsLadder(Long, 104.0, 10.0, cfg);
    assert StateFor(p, 0) == InitialState(p);
    StepFollowsLadder(p, bars[3], 1, 12, 0);
    assert Reached(p, bars[3]) == 1;
    assert Walk(p, bars, 2, 12, 0, InitialState(p)) == Walk(p, bars, 2, 12, 1, StateFor(p, 1));
  }

  /** "A trade that hit TP1 never loses" is false of a whole replay of well-formed bars under a valid configuration. */
  lemma Tp1ThenLossExample()
    ensures EXAMPLE_CONFIG.Valid() && WellFormedBars(LOSING_BARS) && WellFormedBars(RISING_DAYS)
    ensures var r := Scan("BTCUSDT", RISING_DAYS, LOSING_BARS, EXAMPLE_CONFIG, StartIndex(EXAMPLE_CONFIG));
            && r.Success? && |r.value| == 1 && r.value[0].index == 2
            && TP1 in r.value[0].trade.tpHits && r.value[0].trade.realizedPnl < 0.0
  {
    SignalsOnlyAtTwo();
    LosingTrade();
    hide SideAt, Simulate;
    var trade := Simulate("BTCUSDT", Long, LOSING_BARS, 2, EXAMPLE_CONFIG).value;
    assert Scan("BTCUSDT", RISING_DAYS, LOSING_BARS, EXAMPLE_CONFIG, 4) == Success([]);
    assert Scan("BTCUSDT", RISING_DAYS, LOSING_BARS, EXAMPLE_CONFIG, 3) == Success([]);
    assert Scan("BTCUSDT", RISING_DAYS, LOSING_BARS, EXAMPLE_CONFIG, 2) == Success([Entry(2, trade)] + []);
  }

  const FLAT_CLOSES: seq<real> := seq(198, i requires 0 <= i < 198 => 100.0)

  /** A last close above the fast average is not enough: a rebound after a fall leaves the averages in bear order. */
  lemma ReboundIsChop()
    ensures RegimeFromDailyClose(FLAT_CLOSES + [50.0] + [99.0]) == Chop
  {
    var fall := FLAT_CLOSES + [50.0];
    var closes := fall + [99.0];
    FlatThenTwo(2.0 / 51.0);
    FlatThenTwo(2.0 / 201.0);
    assert Alpha(50) == 2.0 / 51.0 && Alpha(200) == 2.0 / 201.0;
  }

  function Mix(alpha: real, newer: real, older: real): real {
    alpha * newer + (1.0 - alpha) * older
  }

  lemma FlatThenTwo(alpha: real)
    requires 0.0 <= alpha <= 1.0
    ensures EmaAt(FLAT_CLOSES + [50.0] + [99.0], alpha, 199) == Mix(alpha, 99.0, Mix(alpha, 50.0, 100.0))
  {
    var closes := FLAT_CLOSES + [50.0] + [99.0];
    EmaWithinRange(closes, alpha, 197, 100.0, 100.0);
    EmaStep(closes, alpha, 198);
    EmaStep(closes, alpha, 199);
    hide EmaAt, Mix;
  }

  lemma EmaStep(values: seq<real>, alpha: real, i: nat)
    requires 0 < i < |values|
    ensures EmaAt(values, alpha, i) == Mix(alpha, values[i], EmaAt(values, alpha, i - 1))
  {
  }
}
