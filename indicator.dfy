// The indicator object: its configuration, the support-level list it builds,
// and the six trading-state fields the per-bar methods update in place.

module Indicator {
  import opened LevelLadder
  import opened ReclaimEngine

  class ReclaimLevelsIndicator {
    // User properties (prices in ticks, time in seconds).
    var majSupport1: int
    var majSupport2: int
    var majSupport3: int
    var pointsAboveTicks: int
    var heldAboveTimeSeconds: int

    /** The major support levels, highest first once configured. */
    var majSupportLevels: seq<int>

    var currentMajSupportLevel: int
    var hasCrossedBelowByPoints: bool
    var timerStartTime: int
    var isTimerRunning: bool
    var hasReclaimedLevel: bool
    var hasEnteredTrade: bool

    /** The trading-state fields as one value. */
    function State(): Engine
      reads this
    {
      Engine(currentMajSupportLevel, hasCrossedBelowByPoints, timerStartTime,
             isTimerRunning, hasReclaimedLevel, hasEnteredTrade)
    }

    ghost predicate Valid()
      reads this
    {
      AllPositive(majSupportLevels) && Inv(State(), majSupportLevels)
    }

    /** The property values the host sets, and the field initialisers. */
    constructor (majSupport1: int, majSupport2: int, majSupport3: int,
                 pointsAboveTicks: int, heldAboveTimeSeconds: int)
      ensures this.majSupport1 == majSupport1 && this.majSupport2 == majSupport2
      ensures this.majSupport3 == majSupport3
      ensures this.pointsAboveTicks == pointsAboveTicks
      ensures this.heldAboveTimeSeconds == heldAboveTimeSeconds
      ensures majSupportLevels == [] && State() == Initial && Valid()
    {
      this.majSupport1 := majSupport1;
      this.majSupport2 := majSupport2;
      this.majSupport3 := majSupport3;
      this.pointsAboveTicks := pointsAboveTicks;
      this.heldAboveTimeSeconds := heldAboveTimeSeconds;
      majSupportLevels := [];
      currentMajSupportLevel := 0;
      hasCrossedBelowByPoints := false;
      timerStartTime := NoTime;
      isTimerRunning := false;
      hasReclaimedLevel := false;
      hasEnteredTrade := false;
    }

    /** The State.Configure branch: keep the positive levels and sort them highest first. */
    method Configure()
      modifies this`majSupportLevels
      ensures majSupportLevels == Ladder(majSupport1, majSupport2, majSupport3)
      ensures NonIncreasing(majSupportLevels) && AllPositive(majSupportLevels)
      ensures multiset(majSupportLevels) == multiset(Positives([majSupport1, majSupport2, majSupport3]))
      ensures State() == Initial ==> Valid()
    {
      majSupportLevels := [];
      AddIfPositive(majSupport1);
      AddIfPositive(majSupport2);
      AddIfPositive(majSupport3);
      assert majSupportLevels == KeptOfThree(majSupport1, majSupport2, majSupport3);
      LadderOfThree(majSupport1, majSupport2, majSupport3);
      majSupportLevels := SortDescending(majSupportLevels);
      InitialInv(majSupportLevels);
    }

    /** `if (level > 0) majSupportLevels.Add(level)`. */
    method AddIfPositive(level: int)
      modifies this`majSupportLevels
      ensures majSupportLevels == old(majSupportLevels) + (if level > 0 then [level] else [])
    {
      if level > 0 {
        majSupportLevels := majSupportLevels + [level];
      }
    }

    method OnBarUpdate(currentBar: int, close: int, time: int)
      modifies this`currentMajSupportLevel, this`hasCrossedBelowByPoints, this`timerStartTime
      modifies this`isTimerRunning, this`hasReclaimedLevel, this`hasEnteredTrade
      ensures State() == OnBar(old(State()), majSupportLevels, pointsAboveTicks,
                               heldAboveTimeSeconds, Bar(currentBar, close, time))
      ensures old(Valid()) ==> Valid()
    {
      ghost var before := State();
      if currentBar < 1 {
        return;
      }
      var lastPrice := close;
      ProcessTradingLogic(lastPrice, time);
      if AllPositive(majSupportLevels) && Inv(before, majSupportLevels) {
        OnBarKeepsInv(before, majSupportLevels, pointsAboveTicks, heldAboveTimeSeconds,
                      Bar(currentBar, close, time));
      }
    }

    method ProcessTradingLogic(lastPrice: int, time: int)
      modifies this`currentMajSupportLevel, this`hasCrossedBelowByPoints, this`timerStartTime
      modifies this`isTimerRunning, this`hasReclaimedLevel, this`hasEnteredTrade
      ensures State() == Process(old(State()), majSupportLevels, pointsAboveTicks,
                                 heldAboveTimeSeconds, lastPrice, time)
    {
      // A margin of PointsAboveTicks ticks, prices being counted in ticks.
      var pointsAbove := pointsAboveTicks;
      if !hasEnteredTrade {
        if !hasCrossedBelowByPoints {
          CheckCondition1CrossedBelow(lastPrice, pointsAbove);
        } else if hasCrossedBelowByPoints && currentMajSupportLevel > 0 {
          CheckCondition2Reclaim(lastPrice, time);
        }
      }
    }

    /** Scans the ladder from the top and arms the first level broken by the margin. */
    method CheckCondition1CrossedBelow(lastPrice: int, pointsAbove: int)
      modifies this`hasCrossedBelowByPoints, this`currentMajSupportLevel
      ensures State() == CrossedBelow(old(State()), majSupportLevels, lastPrice, pointsAbove)
    {
      for i := 0 to |majSupportLevels|
        invariant State() == old(State())
        invariant forall j :: 0 <= j < i ==> !BrokenBy(majSupportLevels[j], lastPrice, pointsAbove)
      {
        var majSupport := majSupportLevels[i];
        if lastPrice <= majSupport - pointsAbove {
          hasCrossedBelowByPoints := true;
          currentMajSupportLevel := majSupport;
          break;
        }
      }
    }

    method CheckCondition2Reclaim(lastPrice: int, time: int)
      modifies this`timerStartTime, this`isTimerRunning, this`hasReclaimedLevel
      modifies this`hasEnteredTrade, this`hasCrossedBelowByPoints, this`currentMajSupportLevel
      ensures State() == Reclaim(old(State()), majSupportLevels, lastPrice, time, heldAboveTimeSeconds)
    {
      if lastPrice >= currentMajSupportLevel {
        if !isTimerRunning {
          isTimerRunning := true;
          timerStartTime := time;
          hasReclaimedLevel := true;
        } else {
          var elapsed := time - timerStartTime;
          if elapsed >= heldAboveTimeSeconds {
            hasEnteredTrade := true;
            isTimerRunning := false;
          }
        }
      } else if lastPrice < currentMajSupportLevel && isTimerRunning {
        isTimerRunning := false;
        timerStartTime := NoTime;
        var currentLevelIndex := IndexOf(majSupportLevels, currentMajSupportLevel);
        if currentLevelIndex < |majSupportLevels| - 1 {
          var nextLowerLevel := majSupportLevels[currentLevelIndex + 1];
          if lastPrice <= nextLowerLevel {
            ResetTradingLogic();
          }
        }
      }
    }

    /** Clears every trading-state field back to its initial value. */
    method ResetTradingLogic()
      modifies this`timerStartTime, this`isTimerRunning, this`hasReclaimedLevel
      modifies this`hasEnteredTrade, this`hasCrossedBelowByPoints, this`currentMajSupportLevel
      ensures State() == Initial
    {
      hasCrossedBelowByPoints := false;
      currentMajSupportLevel := 0;
      isTimerRunning := false;
      timerStartTime := NoTime;
      hasReclaimedLevel := false;
      hasEnteredTrade := false;
    }
  }
}
