/** What the run summary says about the trades it summarizes. */
module ReplaySummary {
  import opened Prelude
  import opened Market
  import opened SleeveBReplay
  import opened TradeTheorems
  import opened ReplayTheorems

  lemma QuotientBack(pnl: real, unitR: real, gross: real)
    requires unitR != 0.0 && gross == pnl / unitR
    ensures unitR * gross == pnl
  {
  }

  lemma AddScaled(unitR: real, a: real, b: real, total: real)
    requires total == a + b
    ensures unitR * total == unitR * a + unitR * b
  {
  }

  function InUnits(unitR: real, r: real): real {
    unitR * r
  }

  /** total_pnl is unit_r times total_r. */
  lemma {:induction false} TotalPnlIsTotalR(trades: seq<Trade>, unitR: real, n: nat)
    requires unitR != 0.0 && n <= |trades|
    requires forall k :: 0 <= k < |trades| ==> trades[k].grossR == GrossR(trades[k].realizedPnl, unitR)
    ensures Equity(trades, n) == InUnits(unitR, TotalR(trades, n))
  {
    if n > 0 {
      TotalPnlIsTotalR(trades, unitR, n - 1);
      QuotientBack(trades[n - 1].realizedPnl, unitR, trades[n - 1].grossR);
      AddScaled(unitR, TotalR(trades, n - 1), trades[n - 1].grossR, TotalR(trades, n));
    }
  }

  /** How many of the first n trades did not make money. */
  function Losses(trades: seq<Trade>, n: nat): int
    requires n <= |trades|
  {
    n - Wins(trades, n)
  }

  /** What that many full losses would cost. */
  function LossBudget(unitR: real, losses: int): real {
    unitR * (losses as real)
  }

  lemma NextLoss(unitR: real, losses: int, more: int, pnl: real)
    requires unitR > 0.0 && -unitR <= pnl
    requires more == losses + if pnl > 0.0 then 0 else 1
    ensures LossBudget(unitR, more) >= LossBudget(unitR, losses)
    ensures LossBudget(unitR, more) + pnl >= LossBudget(unitR, losses)
  {
  }

  /** Only losing trades pull the curve down, and each by at most one unit. */
  lemma {:induction false} FallWithinLosses(trades: seq<Trade>, unitR: real, i: nat, j: nat)
    requires unitR > 0.0 && i <= j <= |trades|
    requires forall k :: 0 <= k < |trades| ==> -unitR <= trades[k].realizedPnl
    ensures LossBudget(unitR, Losses(trades, j)) >= LossBudget(unitR, Losses(trades, i))
    ensures Equity(trades, j) - Equity(trades, i)
         >= LossBudget(unitR, Losses(trades, i)) - LossBudget(unitR, Losses(trades, j))
    decreases j
  {
    hide LossBudget;
    if i < j {
      FallWithinLosses(trades, unitR, i, j - 1);
      NextLoss(unitR, Losses(trades, j - 1), Losses(trades, j), trades[j - 1].realizedPnl);
    }
  }

  /** The drawdown of a whole replay is at most one unit per losing trade. */
  lemma DrawdownWithinLosses(trades: seq<Trade>, unitR: real, s: Summary, symbol: string)
    requires unitR > 0.0 && Summarizes(s, symbol, trades)
    requires forall k :: 0 <= k < |trades| ==> -unitR <= trades[k].realizedPnl
    ensures s.maxDrawdown >= -LossBudget(unitR, s.losses)
  {
    var points := EquityPoints(trades);
    var i, j :| 0 <= i <= j < |points| && s.maxDrawdown == points[j] - points[i];
    var n := |trades|;
    assert LossBudget(unitR, Losses(trades, 0)) == 0.0;
    hide LossBudget, EquityPoints, IsMaxDrawdown;
    FallWithinLosses(trades, unitR, i, j);
    FallWithinLosses(trades, unitR, 0, i);
    FallWithinLosses(trades, unitR, j, n);
    assert s.losses == Losses(trades, n);
  }

  /**
    A replay of well-formed bars under a valid configuration always returns, and its summary satisfies
    total_pnl = unit_r * total_r and max_drawdown >= -unit_r * losses.
   */
  lemma ReplaySummaryBounds(
    symbol: string, daily: seq<Bar>, bars: seq<Bar>, cfg: ReplayConfig, s: Summary)
    requires cfg.Valid() && WellFormedBars(bars)
    ensures Scan(symbol, daily, bars, cfg, StartIndex(cfg)).Success?
    ensures var trades := TradesOf(Scan(symbol, daily, bars, cfg, StartIndex(cfg)).value);
            Summarizes(s, symbol, trades) ==>
              && s.totalPnl == InUnits(cfg.unitR, s.totalR)
              && s.maxDrawdown >= -LossBudget(cfg.unitR, s.losses)
  {
    assert StartIndex(cfg) >= 2;
    hide Simulate, SideAt, StartIndex, InUnits, LossBudget, GrossR, Summarizes, TradesOf;
    ScanSucceeds(symbol, daily, bars, cfg, StartIndex(cfg));
    ScanIsGreedy(symbol, daily, bars, cfg, StartIndex(cfg));
    var entries := Scan(symbol, daily, bars, cfg, StartIndex(cfg)).value;
    var trades := TradesOf(entries);
    forall k | 0 <= k < |trades|
      ensures -cfg.unitR <= trades[k].realizedPnl
      ensures trades[k].grossR == GrossR(trades[k].realizedPnl, cfg.unitR)
    {
      assert GreedyAt(symbol, daily, bars, cfg, StartIndex(cfg), entries, k);
      var side := SideAt(daily, bars, entries[k].index, cfg).value;
      PnlBounds(symbol, side, bars, entries[k].index, cfg, trades[k]);
      GrossOf(symbol, side, bars, entries[k].index, cfg, trades[k]);
    }
    if Summarizes(s, symbol, trades) {
      TotalsOf(s, symbol, trades);
      TotalPnlIsTotalR(trades, cfg.unitR, |trades|);
      DrawdownWithinLosses(trades, cfg.unitR, s, symbol);
    }
  }

  lemma TotalsOf(s: Summary, symbol: string, trades: seq<Trade>)
    requires Summarizes(s, symbol, trades)
    ensures s.totalPnl == Equity(trades, |trades|) && s.totalR == TotalR(trades, |trades|)
  {
  }

  lemma GrossOf(symbol: string, side: PositionSide, bars: seq<Bar>, i: nat, cfg: ReplayConfig, t: Trade)
    requires i < |bars| && Simulate(symbol, side, bars, i, cfg) == Success(t)
    ensures cfg.unitR != 0.0 && t.grossR == GrossR(t.realizedPnl, cfg.unitR)
  {
  }

  // ---------------------------------------------------------------- the summary as sums and counts

  function Pnls(trades: seq<Trade>): (r: seq<real>)
    ensures |r| == |trades|
  {
    seq(|trades|, i requires 0 <= i < |trades| => trades[i].realizedPnl)
  }

  function Rs(trades: seq<Trade>): (r: seq<real>)
    ensures |r| == |trades|
  {
    seq(|trades|, i requires 0 <= i < |trades| => trades[i].grossR)
  }

  /** The first n trades that made money. */
  function Winners(trades: seq<Trade>, n: nat): set<nat>
    requires n <= |trades|
  {
    set i: nat | i < n && trades[i].realizedPnl > 0.0
  }

  lemma {:induction false} RunningTotals(trades: seq<Trade>, n: nat)
    requires n <= |trades|
    ensures Equity(trades, n) == Sum(Pnls(trades)[..n])
    ensures TotalR(trades, n) == Sum(Rs(trades)[..n])
    ensures Wins(trades, n) == |Winners(trades, n)|
  {
    if n > 0 {
      RunningTotals(trades, n - 1);
      assert Pnls(trades)[..n] == Pnls(trades)[..n - 1] + [trades[n - 1].realizedPnl];
      assert Rs(trades)[..n] == Rs(trades)[..n - 1] + [trades[n - 1].grossR];
      SumNext(Pnls(trades)[..n - 1], trades[n - 1].realizedPnl);
      SumNext(Rs(trades)[..n - 1], trades[n - 1].grossR);
      assert Winners(trades, n)
          == Winners(trades, n - 1) + if trades[n - 1].realizedPnl > 0.0 then {n - 1} else {};
    }
  }

  /** Every summary totals PnL and R, counts the trades that made money as wins and all others as losses. */
  lemma SummaryAddsUp(symbol: string, trades: seq<Trade>, s: Summary)
    requires Summarizes(s, symbol, trades)
    ensures s.trades == |trades| && s.wins == |Winners(trades, |trades|)| && s.losses == |trades| - s.wins
    ensures s.totalPnl == Sum(Pnls(trades)) && s.totalR == Sum(Rs(trades))
    ensures IsMaxDrawdown(EquityPoints(trades), s.maxDrawdown)
    ensures forall n :: 0 <= n <= |trades| ==> EquityPoints(trades)[n] == Sum(Pnls(trades)[..n])
  {
    RunningTotals(trades, |trades|);
    assert Pnls(trades)[..|trades|] == Pnls(trades) && Rs(trades)[..|trades|] == Rs(trades);
    forall n | 0 <= n <= |trades|
      ensures EquityPoints(trades)[n] == Sum(Pnls(trades)[..n])
    {
      RunningTotals(trades, n);
    }
  }
}
