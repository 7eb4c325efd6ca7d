/**
  A simulated trade in closed form. On a plan whose targets are in order, the number of targets hit so
  far determines the whole loop state, the exit bar is the first one with an observable exit condition,
  and the realized PnL follows from the targets hit and the exit price. The bounds follow from that.
 */
module TradeLadder {
  import opened Prelude
  import opened Market
  import opened SleeveBReplay

  /** A target's distance from the entry. */
  function TargetMove(p: Plan, i: nat): real
    requires i < |p.targets|
  {
    Move(p.side, p.entry, p.targets[i].price)
  }

  ghost predicate Ladder(p: Plan) {
    && |p.targets| == 3
    && (forall i :: 0 <= i < 3 ==> p.targets[i].rung == LADDER[i])
    && p.stopDistance > 0.0
    && p.initialStop == Ahead(p.side, p.entry, -p.stopDistance)
    && 0.0 < TargetMove(p, 0) <= TargetMove(p, 1) <= TargetMove(p, 2)
    && p.targets[0].fraction >= 0.0 && p.targets[1].fraction >= 0.0 && p.targets[2].fraction >= 0.0
    && p.targets[0].fraction + p.targets[1].fraction + p.targets[2].fraction == 1.0
  }

  lemma TargetDistancesInOrder(cfg: ReplayConfig, stopDistance: real)
    requires cfg.Valid() && stopDistance > 0.0
    ensures 0.0 < TargetDistance(cfg.tp1R, stopDistance)
    ensures TargetDistance(cfg.tp1R, stopDistance) <= TargetDistance(cfg.tp2R, stopDistance)
    ensures TargetDistance(cfg.tp2R, stopDistance) <= TargetDistance(cfg.tp3R, stopDistance)
  {
    var first := ProductPositive(cfg.tp1R, stopDistance);
    ScaleOrdered(stopDistance, cfg.tp1R, cfg.tp2R);
    ScaleOrdered(stopDistance, cfg.tp2R, cfg.tp3R);
  }

  lemma PlanIsLadder(side: PositionSide, entry: real, stopDistance: real, cfg: ReplayConfig)
    requires cfg.Valid() && stopDistance > 0.0 && entry != 0.0
    ensures var p := PlanAt(side, entry, stopDistance, cfg);
            && Ladder(p)
            && TargetMove(p, 0) == TargetDistance(cfg.tp1R, stopDistance)
            && TargetMove(p, 1) == TargetDistance(cfg.tp2R, stopDistance)
            && TargetMove(p, 2) == TargetDistance(cfg.tp3R, stopDistance)
  {
    TargetDistancesInOrder(cfg, stopDistance);
    hide TargetDistance;
  }

  // ---------------------------------------------------------------- the state as a function of the hit count

  function Fraction(p: Plan, i: nat): real
    requires i < |p.targets|
  {
    p.targets[i].fraction
  }

  /** The fraction still open once the first n targets are booked. */
  function Remaining(p: Plan, n: nat): real
    requires |p.targets| == 3 && n <= 3
  {
    if n == 0 then 1.0
    else if n == 1 then 1.0 - Fraction(p, 0)
    else if n == 2 then 1.0 - Fraction(p, 0) - Fraction(p, 1)
    else 1.0 - Fraction(p, 0) - Fraction(p, 1) - Fraction(p, 2)
  }

  /** What closing target i's whole fraction at its price realizes. */
  function Leg(p: Plan, i: nat): real
    requires i < |p.targets|
  {
    LegPnl(p, p.targets[i].price, Fraction(p, i))
  }

  function Realized(p: Plan, n: nat): real
    requires |p.targets| == 3 && n <= 3
  {
    if n == 0 then 0.0
    else if n == 1 then Leg(p, 0)
    else if n == 2 then Leg(p, 0) + Leg(p, 1)
    else Leg(p, 0) + Leg(p, 1) + Leg(p, 2)
  }

  /** The stop in force once n targets are booked. */
  function StopLevel(p: Plan, n: nat): real {
    if n == 0 then p.initialStop else p.entry
  }

  function StateFor(p: Plan, n: nat): State
    requires n <= 3 && |p.targets| == 3
  {
    State(
      Remaining(p, n),
      Realized(p, n),
      StopLevel(p, n),
      LADDER[..n],
      if n == 0 then p.entry else p.targets[n - 1].price,
      if n == 0 then TimeStop else TargetExit(LADDER[n - 1]))
  }

  /** How many targets a bar reaches. */
  function Reached(p: Plan, bar: Bar): (n: nat)
    requires |p.targets| == 3
    ensures n <= 3
  {
    if TargetHit(p.side, bar, p.targets[2].price) then 3
    else if TargetHit(p.side, bar, p.targets[1].price) then 2
    else if TargetHit(p.side, bar, p.targets[0].price) then 1
    else 0
  }

  function ReachedAt(p: Plan, bars: seq<Bar>, entryIndex: nat, j: nat): (n: nat)
    requires |p.targets| == 3 && entryIndex + j < |bars|
    ensures n <= 3
  {
    Reached(p, bars[entryIndex + j])
  }

  /** The most targets any of the first o bars after the entry reaches. */
  function Best(p: Plan, bars: seq<Bar>, entryIndex: nat, o: nat): (n: nat)
    requires |p.targets| == 3 && entryIndex + o < |bars|
    ensures n <= 3
  {
    if o == 0 then 0 else MaxInt(Best(p, bars, entryIndex, o - 1), ReachedAt(p, bars, entryIndex, o))
  }

  lemma RemainingValues(p: Plan)
    requires Ladder(p)
    ensures Remaining(p, 0) == 1.0
    ensures Remaining(p, 1) == p.targets[1].fraction + p.targets[2].fraction
    ensures Remaining(p, 2) == p.targets[2].fraction
    ensures Remaining(p, 3) == 0.0
  {
  }

  lemma LadderPrefix(p: Plan, bar: Bar, k: nat)
    requires Ladder(p) && k < 3
    ensures TargetHit(p.side, bar, p.targets[k].price) <==> k < Reached(p, bar)
  {
  }

  /** Booking the next target of the ladder moves the state to the next count. */
  lemma BookNext(p: Plan, bar: Bar, k: nat)
    requires Ladder(p) && k < 3 && k < Reached(p, bar)
    ensures BookTarget(p, bar, p.targets[k], StateFor(p, k)) == StateFor(p, k + 1)
  {
    LadderPrefix(p, bar, k);
    RemainingValues(p);
    var t := p.targets[k];
    assert t.rung == LADDER[k];
    assert LADDER[..k] + [t.rung] == LADDER[..k + 1];
    assert t.rung !in LADDER[..k];
    assert Min(t.fraction, Remaining(p, k)) == t.fraction;
  }

  /** A target booked before, or one the bar does not reach, changes nothing. */
  lemma BookNothing(p: Plan, bar: Bar, k: nat, n: nat)
    requires Ladder(p) && k < 3 && n <= 3
    requires k < n || k >= Reached(p, bar)
    ensures BookTarget(p, bar, p.targets[k], StateFor(p, n)) == StateFor(p, n)
  {
    LadderPrefix(p, bar, k);
    if k < n {
      assert LADDER[..n][k] == p.targets[k].rung;
    }
  }

  /** Checking the first k targets moves the count up to what the bar reaches among them. */
  lemma {:induction false} BookTargetsCounts(p: Plan, bar: Bar, k: nat, n: nat)
    requires Ladder(p) && k <= 3 && n <= 3
    ensures BookTargets(p, bar, k, StateFor(p, n)) == StateFor(p, CountAfter(Reached(p, bar), k, n))
  {
    if k > 0 {
      BookTargetsCounts(p, bar, k - 1, n);
      var m := CountAfter(Reached(p, bar), k - 1, n);
      if m == k - 1 && k <= Reached(p, bar) {
        BookNext(p, bar, m);
      } else {
        BookNothing(p, bar, k - 1, m);
      }
    }
  }

  /** The hit count after checking the first k targets against a bar that reaches r, starting from n. */
  function CountAfter(r: nat, k: nat, n: nat): (m: nat)
    requires r <= 3 && k <= 3 && n <= 3
    ensures n <= m <= 3
  {
    MaxInt(n, if r <= k then r else k)
  }

  /** One bar that does not stop the trade out raises the hit count to what the bar reaches. */
  lemma StepFollowsLadder(p: Plan, bar: Bar, offset: nat, timeStopBars: int, n: nat)
    requires Ladder(p) && n <= 3
    ensures var m := MaxInt(n, Reached(p, bar));
            StepBar(p, bar, offset, timeStopBars, StateFor(p, n))
            == if StopHit(p.side, bar, StopLevel(p, n)) then
                 (CloseRest(p, StateFor(p, n), StopLevel(p, n), if n == 0 then StopLoss else BreakevenStop), true)
               else if Remaining(p, m) <= 0.0 then (StateFor(p, m), true)
               else if offset >= timeStopBars then (CloseRest(p, StateFor(p, m), bar.close, TimeStop), true)
               else (StateFor(p, m), false)
  {
    BookTargetsCounts(p, bar, 3, n);
  }

  // ---------------------------------------------------------------- the exit bar

  /** Bar o after the entry ends the trade, told from the bars alone. */
  predicate ExitsAt(p: Plan, bars: seq<Bar>, entryIndex: nat, timeStopBars: int, o: nat)
    requires |p.targets| == 3 && entryIndex + o < |bars|
  {
    && o >= 1
    && (|| StopHit(p.side, bars[entryIndex + o], StopLevel(p, Best(p, bars, entryIndex, o - 1)))
        || Remaining(p, Best(p, bars, entryIndex, o)) <= 0.0
        || o >= timeStopBars)
  }

  /** The final state of a trade that ends o bars after the entry. */
  function FinalState(p: Plan, bars: seq<Bar>, entryIndex: nat, timeStopBars: int, o: nat): State
    requires |p.targets| == 3 && entryIndex + o < |bars|
  {
    var bar := bars[entryIndex + o];
    var n := Best(p, bars, entryIndex, o);
    if o >= 1 && StopHit(p.side, bar, StopLevel(p, Best(p, bars, entryIndex, o - 1))) then
      var before := Best(p, bars, entryIndex, o - 1);
      CloseRest(p, StateFor(p, before), StopLevel(p, before), if before == 0 then StopLoss else BreakevenStop)
    else if Remaining(p, n) <= 0.0 then StateFor(p, n)
    else CloseRest(p, StateFor(p, n), bar.close, if o >= 1 && o >= timeStopBars then TimeStop else EndOfData)
  }

  /** One more bar either ends the trade in FinalState or moves the hit count on. */
  lemma NextBar(p: Plan, bars: seq<Bar>, entryIndex: nat, timeStopBars: int, o: nat)
    requires Ladder(p) && o >= 1 && entryIndex + o < |bars|
    ensures StepBar(p, bars[entryIndex + o], o, timeStopBars, StateFor(p, Best(p, bars, entryIndex, o - 1)))
         == if ExitsAt(p, bars, entryIndex, timeStopBars, o) then
              (FinalState(p, bars, entryIndex, timeStopBars, o), true)
            else (StateFor(p, Best(p, bars, entryIndex, o)), false)
  {
    hide LegPnl, Realized, Remaining, Reached, StepBar;
    StepFollowsLadder(p, bars[entryIndex + o], o, timeStopBars, Best(p, bars, entryIndex, o - 1));
  }

  lemma OpenAtLastBar(p: Plan, bars: seq<Bar>, entryIndex: nat, timeStopBars: int, o: nat)
    requires Ladder(p) && entryIndex + o < |bars|
    requires o >= 1 ==> !ExitsAt(p, bars, entryIndex, timeStopBars, o)
    ensures var s := StateFor(p, Best(p, bars, entryIndex, o));
            && s.remaining > 0.0
            && CloseRest(p, s, bars[entryIndex + o].close, EndOfData)
               == FinalState(p, bars, entryIndex, timeStopBars, o)
  {
    RemainingValues(p);
    hide LegPnl, Realized, Remaining, Reached;
  }

  /** The loop refines the closed form: it ends at the first exiting bar, or at the last bar, in FinalState. */
  lemma {:induction false} WalkIsFirstExit(p: Plan, bars: seq<Bar>, entryIndex: nat, timeStopBars: int, held: nat)
    requires Ladder(p) && entryIndex + held < |bars|
    requires forall o :: 1 <= o <= held ==> !ExitsAt(p, bars, entryIndex, timeStopBars, o)
    ensures var x := Walk(p, bars, entryIndex, timeStopBars, held, StateFor(p, Best(p, bars, entryIndex, held)));
            && held <= x.held && entryIndex + x.held < |bars|
            && (forall o :: 1 <= o < x.held ==> !ExitsAt(p, bars, entryIndex, timeStopBars, o))
            && (ExitsAt(p, bars, entryIndex, timeStopBars, x.held) || entryIndex + x.held + 1 == |bars|)
            && x.state == FinalState(p, bars, entryIndex, timeStopBars, x.held)
    decreases |bars| - held
  {
    hide StepBar, FinalState, ExitsAt, StateFor, CloseRest, Best;
    assert |p.targets| == 3;
    if entryIndex + held + 1 == |bars| {
      OpenAtLastBar(p, bars, entryIndex, timeStopBars, held);
    } else {
      NextBar(p, bars, entryIndex, timeStopBars, held + 1);
      if !ExitsAt(p, bars, entryIndex, timeStopBars, held + 1) {
        WalkIsFirstExit(p, bars, entryIndex, timeStopBars, held + 1);
      }
    }
  }

  /** The first bar from offset o on that ends the trade, or the last bar: read off the bars before any simulation. */
  function ExitOffset(p: Plan, bars: seq<Bar>, entryIndex: nat, timeStopBars: int, o: nat): (x: nat)
    requires |p.targets| == 3 && entryIndex + o < |bars|
    ensures o <= x && entryIndex + x < |bars|
    decreases |bars| - o
  {
    if ExitsAt(p, bars, entryIndex, timeStopBars, o) || entryIndex + o + 1 == |bars| then o
    else ExitOffset(p, bars, entryIndex, timeStopBars, o + 1)
  }

  lemma {:induction false} ExitOffsetIsFirst(
    p: Plan, bars: seq<Bar>, entryIndex: nat, timeStopBars: int, o: nat, held: nat)
    requires |p.targets| == 3 && o <= held && entryIndex + held < |bars|
    requires forall k :: o <= k < held ==> !ExitsAt(p, bars, entryIndex, timeStopBars, k)
    requires ExitsAt(p, bars, entryIndex, timeStopBars, held) || entryIndex + held + 1 == |bars|
    ensures ExitOffset(p, bars, entryIndex, timeStopBars, o) == held
    decreases held - o
  {
    hide ExitsAt;
    if o < held {
      ExitOffsetIsFirst(p, bars, entryIndex, timeStopBars, o + 1, held);
    }
  }

  // ---------------------------------------------------------------- realized PnL

  /** What target i earns per unit of quantity. */
  function UnitLeg(p: Plan, i: nat): real
    requires i < |p.targets|
  {
    Fraction(p, i) * TargetMove(p, i)
  }

  /** What the first n targets earn per unit of quantity. */
  function BookedMove(p: Plan, n: nat): real
    requires |p.targets| == 3 && n <= 3
  {
    if n == 0 then 0.0
    else if n == 1 then UnitLeg(p, 0)
    else if n == 2 then UnitLeg(p, 0) + UnitLeg(p, 1)
    else UnitLeg(p, 0) + UnitLeg(p, 1) + UnitLeg(p, 2)
  }

  /** What closing the rest at exit after n targets earns per unit of quantity. */
  function UnitRest(p: Plan, n: nat, exit: real): real
    requires |p.targets| == 3 && n <= 3
  {
    Remaining(p, n) * Move(p.side, p.entry, exit)
  }

  /** What a trade with n targets hit and the rest closed at exit earns per unit of quantity. */
  function UnitPnl(p: Plan, n: nat, exit: real): real
    requires |p.targets| == 3 && n <= 3
  {
    BookedMove(p, n) + UnitRest(p, n, exit)
  }

  /** What such a trade earns on its whole quantity. */
  function Earned(p: Plan, n: nat, exit: real): real
    requires |p.targets| == 3 && n <= 3
  {
    p.quantity * UnitPnl(p, n, exit)
  }

  lemma LegPnlValue(p: Plan, price: real, fraction: real)
    ensures LegPnl(p, price, fraction) == p.quantity * (fraction * Move(p.side, p.entry, price))
  {
    hide Move;
  }

  lemma DistributeSum(q: real, a: real, b: real, c: real, s: real)
    requires s == a + b + c
    ensures q * a + q * b + q * c == q * s
  {
  }

  /** Closing the rest of a trade with n targets hit realizes its unit PnL on the whole quantity. */
  lemma CloseRestRealizes(p: Plan, n: nat, price: real)
    requires |p.targets| == 3 && n <= 3
    ensures Realized(p, n) + LegPnl(p, price, Remaining(p, n)) == Earned(p, n, price)
  {
    hide LegPnl;
    assert Leg(p, 0) == p.quantity * UnitLeg(p, 0) by { LegPnlValue(p, p.targets[0].price, Fraction(p, 0)); }
    assert Leg(p, 1) == p.quantity * UnitLeg(p, 1) by { LegPnlValue(p, p.targets[1].price, Fraction(p, 1)); }
    assert Leg(p, 2) == p.quantity * UnitLeg(p, 2) by { LegPnlValue(p, p.targets[2].price, Fraction(p, 2)); }
    assert LegPnl(p, price, Remaining(p, n)) == p.quantity * UnitRest(p, n, price) by {
      LegPnlValue(p, price, Remaining(p, n));
    }
    hide UnitLeg, UnitRest, Leg, Remaining;
    DistributeSum(p.quantity, UnitLeg(p, 0), UnitLeg(p, 1), UnitLeg(p, 2), BookedMove(p, 3));
    DistributeSum(p.quantity, UnitLeg(p, 0), UnitLeg(p, 1), 0.0, BookedMove(p, 2));
    DistributeSum(p.quantity, BookedMove(p, n), UnitRest(p, n, price), 0.0, UnitPnl(p, n, price));
  }

  lemma FinalStateClosedForm(p: Plan, bars: seq<Bar>, entryIndex: nat, timeStopBars: int, o: nat)
    requires Ladder(p) && entryIndex + o < |bars|
    ensures var s := FinalState(p, bars, entryIndex, timeStopBars, o);
            && |s.hits| <= 3 && s.hits == LADDER[..|s.hits|]
            && s.realized == Earned(p, |s.hits|, s.exitPrice)
  {
    var s := FinalState(p, bars, entryIndex, timeStopBars, o);
    var n := |s.hits|;
    hide LegPnl, Earned, Realized;
    CloseRestRealizes(p, n, s.exitPrice);
    NothingLeft(p, s.exitPrice);
    RemainingValues(p);
  }

  lemma NothingLeft(p: Plan, exit: real)
    requires |p.targets| == 3
    ensures LegPnl(p, exit, 0.0) == 0.0
  {
  }

  /** The exit price of a well-formed run is no worse than the stop and short of the next target. */
  lemma ExitMoveBounds(p: Plan, bars: seq<Bar>, entryIndex: nat, timeStopBars: int, o: nat)
    requires Ladder(p) && entryIndex + o < |bars|
    requires WellFormedBars(bars) && p.entry == bars[entryIndex].close
    ensures var s := FinalState(p, bars, entryIndex, timeStopBars, o);
            var n := |s.hits|;
            var move := Move(p.side, p.entry, s.exitPrice);
            && -p.stopDistance <= move
            && (n < 3 ==> move <= TargetMove(p, n))
            && (o >= 1 && Best(p, bars, entryIndex, o - 1) >= 1 ==> n >= 1 && move >= 0.0)
  {
    var bar := bars[entryIndex + o];
    assert bar.WellFormed();
    RemainingValues(p);
    var s := FinalState(p, bars, entryIndex, timeStopBars, o);
    if |s.hits| < 3 {
      LadderPrefix(p, bar, |s.hits|);
    }
  }

  /** Short of the next target, closing its fraction there instead would not have earned less. */
  lemma UnitPnlRises(p: Plan, n: nat, exit: real)
    requires Ladder(p) && n < 3
    requires Move(p.side, p.entry, exit) <= TargetMove(p, n)
    ensures UnitPnl(p, n, exit) <= UnitPnl(p, n + 1, exit)
  {
    RestGap(Remaining(p, n), Remaining(p, n + 1), Fraction(p, n), TargetMove(p, n), Move(p.side, p.entry, exit));
    assert BookedMove(p, n + 1) == BookedMove(p, n) + UnitLeg(p, n);
    hide Remaining, BookedMove, Move, TargetMove;
  }

  lemma RestGap(r: real, rest: real, f: real, target: real, move: real)
    requires f >= 0.0 && move <= target && rest == r - f
    ensures r * move <= f * target + rest * move
  {
  }

  lemma {:induction false} UnitPnlAtMostFullLadder(p: Plan, n: nat, exit: real)
    requires Ladder(p) && n <= 3
    requires n < 3 ==> Move(p.side, p.entry, exit) <= TargetMove(p, n)
    ensures UnitPnl(p, n, exit) <= BookedMove(p, 3)
    decreases 3 - n
  {
    if n < 3 {
      UnitPnlRises(p, n, exit);
      UnitPnlAtMostFullLadder(p, n + 1, exit);
    } else {
      RemainingValues(p);
    }
  }

  lemma BookedMoveRises(p: Plan, n: nat)
    requires Ladder(p) && n <= 3
    ensures BookedMove(p, n) >= 0.0
    ensures n >= 1 ==> BookedMove(p, n) >= UnitLeg(p, 0)
  {
    ProductNonNegative(Fraction(p, 0), TargetMove(p, 0));
    ProductNonNegative(Fraction(p, 1), TargetMove(p, 1));
    ProductNonNegative(Fraction(p, 2), TargetMove(p, 2));
  }

  lemma RestFloor(rest: real, move: real)
    requires 0.0 <= rest <= 1.0
    ensures move >= 0.0 ==> rest * move >= 0.0
    ensures move < 0.0 ==> move <= rest * move
  {
  }

  lemma UnitRestFloor(p: Plan, n: nat, exit: real)
    requires Ladder(p) && n <= 3
    ensures UnitRest(p, n, exit) >= if Move(p.side, p.entry, exit) >= 0.0 then 0.0 else Move(p.side, p.entry, exit)
  {
    RemainingValues(p);
    hide Remaining, Move;
    RestFloor(Remaining(p, n), Move(p.side, p.entry, exit));
  }

  /** A rest closed no worse than the floor keeps the whole trade above the floor. */
  lemma UnitPnlAtLeast(p: Plan, n: nat, exit: real)
    requires Ladder(p) && n <= 3
    requires -p.stopDistance <= Move(p.side, p.entry, exit)
    ensures UnitPnl(p, n, exit) >= -p.stopDistance
    ensures Move(p.side, p.entry, exit) >= 0.0 ==> UnitPnl(p, n, exit) >= BookedMove(p, n)
  {
    UnitRestFloor(p, n, exit);
    BookedMoveRises(p, n);
    hide BookedMove, UnitRest, Move;
  }
}
