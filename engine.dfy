// The reclaim detection state machine as pure functions: one function per
// trading method of the indicator, and the properties they keep.
// Prices are integer ticks, so the margin is PointsAboveTicks ticks; bar times
// are integer seconds.

module ReclaimEngine {
  import opened LevelLadder

  /** Stands for DateTime.MinValue, the "no timer" start time. */
  const NoTime: int := 0

  /** The six trading-state fields of the indicator. */
  datatype Engine = Engine(
    currentMajSupportLevel: int,
    hasCrossedBelowByPoints: bool,
    timerStartTime: int,
    isTimerRunning: bool,
    hasReclaimedLevel: bool,
    hasEnteredTrade: bool)

  /** The field initialisers, which ResetTradingLogic also restores. */
  const Initial: Engine := Engine(0, false, NoTime, false, false, false)

  /** One bar as the host delivers it: CurrentBar, Close[0] and Time[0]. */
  datatype Bar = Bar(index: int, close: int, time: int)

  /** Price has fallen at least `margin` below `level` (inclusive). */
  predicate BrokenBy(level: int, price: int, margin: int) {
    price <= level - margin
  }

  /** The first ladder position whose level the price has broken, if any. */
  function FirstBroken(levels: seq<int>, price: int, margin: int): (r: Option<nat>)
    ensures r.Some? ==> r.value < |levels| && BrokenBy(levels[r.value], price, margin)
    ensures r.Some? ==> forall j :: 0 <= j < r.value ==> !BrokenBy(levels[j], price, margin)
    ensures r.None? ==> forall j :: 0 <= j < |levels| ==> !BrokenBy(levels[j], price, margin)
  {
    if |levels| == 0 then None
    else if BrokenBy(levels[0], price, margin) then Some(0)
    else
      match FirstBroken(levels[1..], price, margin)
      case None => None
      case Some(k) => Some(k + 1)
  }

  /** CheckCondition1_CrossedBelow: arm the first broken level of the ladder. */
  function CrossedBelow(e: Engine, levels: seq<int>, price: int, margin: int): (r: Engine)
    ensures r.hasCrossedBelowByPoints <==>
      e.hasCrossedBelowByPoints || exists k :: 0 <= k < |levels| && BrokenBy(levels[k], price, margin)
    ensures r != e ==> r.currentMajSupportLevel in levels && BrokenBy(r.currentMajSupportLevel, price, margin)
    ensures r.timerStartTime == e.timerStartTime && r.isTimerRunning == e.isTimerRunning
    ensures r.hasReclaimedLevel == e.hasReclaimedLevel && r.hasEnteredTrade == e.hasEnteredTrade
  {
    match FirstBroken(levels, price, margin)
    case None => e
    case Some(k) => e.(hasCrossedBelowByPoints := true, currentMajSupportLevel := levels[k])
  }

  /** CheckCondition2_Reclaim: run, fire or stop the hold timer of the armed level. */
  function Reclaim(e: Engine, levels: seq<int>, price: int, time: int, held: int): (r: Engine)
    // The armed level and crossed flag survive unless all tracking is cleared,
    // which only a drop below the level with the timer running can do.
    ensures r == Initial || (r.currentMajSupportLevel == e.currentMajSupportLevel
                             && r.hasCrossedBelowByPoints == e.hasCrossedBelowByPoints)
    ensures r == Initial && e != Initial ==> e.isTimerRunning && price < e.currentMajSupportLevel
    // The timer starts only at or above the level, at the bar's time.
    ensures r.isTimerRunning && !e.isTimerRunning ==>
      price >= e.currentMajSupportLevel && r.timerStartTime == time && r.hasReclaimedLevel
    // A trade is entered only from a running timer that has lasted the hold time.
    ensures r.hasEnteredTrade && !e.hasEnteredTrade ==>
      e.isTimerRunning && price >= e.currentMajSupportLevel && time - e.timerStartTime >= held
  {
    if price >= e.currentMajSupportLevel then
      if !e.isTimerRunning then
        e.(isTimerRunning := true, timerStartTime := time, hasReclaimedLevel := true)
      else if time - e.timerStartTime >= held then
        e.(hasEnteredTrade := true, isTimerRunning := false)
      else
        e
    else if e.isTimerRunning then
      var stopped := e.(isTimerRunning := false, timerStartTime := NoTime);
      match NextLower(levels, e.currentMajSupportLevel)
      case Some(next) => if price <= next then Initial else stopped
      case None => stopped
    else
      e
  }

  /** ProcessTradingLogic: nothing once the trade is entered. */
  function Process(e: Engine, levels: seq<int>, margin: int, held: int, price: int, time: int): (r: Engine)
    ensures e.hasEnteredTrade ==> r == e
    ensures e.hasCrossedBelowByPoints && !r.hasCrossedBelowByPoints ==> r == Initial
  {
    if e.hasEnteredTrade then e
    else if !e.hasCrossedBelowByPoints then CrossedBelow(e, levels, price, margin)
    else if e.currentMajSupportLevel > 0 then Reclaim(e, levels, price, time, held)
    else e
  }

  /** OnBarUpdate: the first bar is skipped. */
  function OnBar(e: Engine, levels: seq<int>, margin: int, held: int, bar: Bar): (r: Engine)
    ensures bar.index < 1 ==> r == e
  {
    if bar.index < 1 then e else Process(e, levels, margin, held, bar.close, bar.time)
  }

  /** The state after a sequence of bars, in order; warm-up bars alone change nothing. */
  function Run(e: Engine, levels: seq<int>, margin: int, held: int, bars: seq<Bar>): (r: Engine)
    ensures (forall i :: 0 <= i < |bars| ==> bars[i].index < 1) ==> r == e
    decreases |bars|
  {
    if |bars| == 0 then e else Run(OnBar(e, levels, margin, held, bars[0]), levels, margin, held, bars[1..])
  }

  /** The relations between the fields that every bar keeps. */
  predicate Inv(e: Engine, levels: seq<int>) {
    && (e.isTimerRunning ==> e.hasCrossedBelowByPoints)
    && (e.hasCrossedBelowByPoints <==> e.currentMajSupportLevel in levels)
    && (e.hasReclaimedLevel ==> e.hasCrossedBelowByPoints)
    && (e.isTimerRunning ==> e.hasReclaimedLevel)
    && (e.hasEnteredTrade ==> !e.isTimerRunning && e.hasCrossedBelowByPoints && e.hasReclaimedLevel)
  }

  // ---------------------------------------------------------------------------
  // Per-bar properties

  lemma EnteredIsTerminal(e: Engine, levels: seq<int>, margin: int, held: int, bar: Bar)
    requires e.hasEnteredTrade
    ensures OnBar(e, levels, margin, held, bar) == e
  {
  }

  /**
   * Before any level is armed, a bar arms the first ladder entry it breaks
   * (the highest one, the ladder being non-increasing) or changes nothing.
   */
  lemma ArmsHighestBrokenLevel(e: Engine, levels: seq<int>, margin: int, held: int, bar: Bar)
    requires bar.index >= 1 && !e.hasEnteredTrade && !e.hasCrossedBelowByPoints
    ensures var r := OnBar(e, levels, margin, held, bar);
      if exists k :: 0 <= k < |levels| && BrokenBy(levels[k], bar.close, margin) then
        exists k :: 0 <= k < |levels| && BrokenBy(levels[k], bar.close, margin)
          && (forall j :: 0 <= j < k ==> !BrokenBy(levels[j], bar.close, margin))
          && r == e.(hasCrossedBelowByPoints := true, currentMajSupportLevel := levels[k])
      else
        r == e
    ensures var r := OnBar(e, levels, margin, held, bar);
      NonIncreasing(levels) ==>
        forall j :: 0 <= j < |levels| && BrokenBy(levels[j], bar.close, margin) ==>
          r.hasCrossedBelowByPoints && levels[j] <= r.currentMajSupportLevel
  {
    var r := OnBar(e, levels, margin, held, bar);
    match FirstBroken(levels, bar.close, margin)
    case None =>
    case Some(k) =>
      assert r == e.(hasCrossedBelowByPoints := true, currentMajSupportLevel := levels[k]);
      forall j | 0 <= j < |levels| && BrokenBy(levels[j], bar.close, margin)
        ensures j >= k
      {
      }
  }

  /** Armed, timer stopped, price at or above the level: the timer starts. */
  lemma TimerStartsOnRecovery(e: Engine, levels: seq<int>, margin: int, held: int, bar: Bar)
    requires bar.index >= 1 && !e.hasEnteredTrade && e.hasCrossedBelowByPoints
    requires e.currentMajSupportLevel > 0 && !e.isTimerRunning
    requires bar.close >= e.currentMajSupportLevel
    ensures var r := OnBar(e, levels, margin, held, bar);
      r.isTimerRunning && r.hasReclaimedLevel && r.timerStartTime == bar.time
      && r.currentMajSupportLevel == e.currentMajSupportLevel
      && r.hasCrossedBelowByPoints && !r.hasEnteredTrade
  {
  }

  /**
   * Timer running, price at or above the level: the start time is kept, and the
   * trade is entered (stopping the timer) exactly when the hold time has passed.
   */
  lemma TimerRunningAbove(e: Engine, levels: seq<int>, margin: int, held: int, bar: Bar)
    requires bar.index >= 1 && !e.hasEnteredTrade && e.hasCrossedBelowByPoints
    requires e.currentMajSupportLevel > 0 && e.isTimerRunning
    requires bar.close >= e.currentMajSupportLevel
    ensures var r := OnBar(e, levels, margin, held, bar);
      && r.timerStartTime == e.timerStartTime
      && r.currentMajSupportLevel == e.currentMajSupportLevel
      && (r.hasEnteredTrade <==> bar.time - e.timerStartTime >= held)
      && (r.hasEnteredTrade ==> r == e.(hasEnteredTrade := true, isTimerRunning := false))
      && (!r.hasEnteredTrade ==> r == e)
  {
  }

  /**
   * Timer running, price below the level: the timer stops; all tracking is
   * cleared when price has reached the ladder entry after the armed level,
   * otherwise the armed level and the crossed flag stay.
   */
  lemma DropWithTimerRunning(e: Engine, levels: seq<int>, margin: int, held: int, bar: Bar)
    requires bar.index >= 1 && !e.hasEnteredTrade && e.hasCrossedBelowByPoints
    requires e.currentMajSupportLevel in levels && e.currentMajSupportLevel > 0
    requires e.isTimerRunning && bar.close < e.currentMajSupportLevel
    ensures var r := OnBar(e, levels, margin, held, bar);
      var i := IndexOf(levels, e.currentMajSupportLevel);
      && !r.isTimerRunning
      && (i + 1 < |levels| && bar.close <= levels[i + 1] ==>
            !r.hasCrossedBelowByPoints && r.currentMajSupportLevel == 0
            && !r.hasReclaimedLevel && !r.hasEnteredTrade && r == Initial)
      && (!(i + 1 < |levels| && bar.close <= levels[i + 1]) ==>
            r == e.(isTimerRunning := false, timerStartTime := NoTime))
  {
  }

  /** Timer stopped, price below the level: nothing changes, however deep the drop. */
  lemma DropWithTimerStopped(e: Engine, levels: seq<int>, margin: int, held: int, bar: Bar)
    requires bar.index >= 1 && e.hasCrossedBelowByPoints
    requires !e.isTimerRunning && bar.close < e.currentMajSupportLevel
    ensures OnBar(e, levels, margin, held, bar) == e
  {
  }

  /** A trade can only be entered on a bar that finds the timer already running. */
  lemma EntryNeedsRunningTimer(e: Engine, levels: seq<int>, margin: int, held: int, bar: Bar)
    requires !e.hasEnteredTrade && !e.isTimerRunning
    ensures !OnBar(e, levels, margin, held, bar).hasEnteredTrade
  {
  }

  // ---------------------------------------------------------------------------
  // Invariants

  /** With no positive support configured, no level is ever armed and no trade entered. */
  lemma EmptyLadderIdle(margin: int, held: int, bars: seq<Bar>)
    ensures var r := Run(Initial, [], margin, held, bars);
      !r.hasCrossedBelowByPoints && !r.isTimerRunning && !r.hasEnteredTrade
  {
    InitialInv([]);
    RunKeepsInv(Initial, [], margin, held, bars);
  }

  lemma InitialInv(levels: seq<int>)
    requires AllPositive(levels)
    ensures Inv(Initial, levels)
  {
  }

  /** Under the invariant the armed level is positive, so line 263's guard always holds. */
  lemma ArmedLevelIsPositive(e: Engine, levels: seq<int>)
    requires AllPositive(levels) && Inv(e, levels) && e.hasCrossedBelowByPoints
    ensures e.currentMajSupportLevel > 0
  {
  }

  lemma OnBarKeepsInv(e: Engine, levels: seq<int>, margin: int, held: int, bar: Bar)
    requires AllPositive(levels) && Inv(e, levels)
    ensures Inv(OnBar(e, levels, margin, held, bar), levels)
  {
    if bar.index >= 1 && !e.hasEnteredTrade {
      if !e.hasCrossedBelowByPoints {
        match FirstBroken(levels, bar.close, margin)
        case None =>
        case Some(k) => assert levels[k] in levels;
      }
    }
  }

  lemma {:induction false} RunKeepsInv(e: Engine, levels: seq<int>, margin: int, held: int, bars: seq<Bar>)
    requires AllPositive(levels) && Inv(e, levels)
    ensures Inv(Run(e, levels, margin, held, bars), levels)
    decreases |bars|
  {
    if |bars| > 0 {
      OnBarKeepsInv(e, levels, margin, held, bars[0]);
      RunKeepsInv(OnBar(e, levels, margin, held, bars[0]), levels, margin, held, bars[1..]);
    }
  }

  lemma {:induction false} RunAfterEntryIsInert(e: Engine, levels: seq<int>, margin: int, held: int, bars: seq<Bar>)
    requires e.hasEnteredTrade
    ensures Run(e, levels, margin, held, bars) == e
    decreases |bars|
  {
    if |bars| > 0 {
      EnteredIsTerminal(e, levels, margin, held, bars[0]);
      RunAfterEntryIsInert(e, levels, margin, held, bars[1..]);
    }
  }

  /** Entering the trade is permanent over any later bars. */
  lemma {:induction false} EntryIsPermanent(e: Engine, levels: seq<int>, margin: int, held: int, bars: seq<Bar>, n: nat)
    requires n <= |bars| && Run(e, levels, margin, held, bars[..n]).hasEnteredTrade
    ensures Run(e, levels, margin, held, bars) == Run(e, levels, margin, held, bars[..n])
    decreases n
  {
    if n == 0 {
      assert bars[..0] == [];
      RunAfterEntryIsInert(e, levels, margin, held, bars);
    } else {
      assert bars[..n][0] == bars[0] && bars[..n][1..] == bars[1..][..n - 1];
      EntryIsPermanent(OnBar(e, levels, margin, held, bars[0]), levels, margin, held, bars[1..], n - 1);
    }
  }
}
