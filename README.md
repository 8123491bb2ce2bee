# Reclaim-level detection engine of the NinjaTrader Reclaim Levels indicator

This project models the trading logic of `ReclaimLevelsIndicator`, a NinjaTrader
indicator. The indicator watches bar closes against up to three configured
major support levels and detects a break-and-reclaim pattern:

1. It arms the highest support that the close has broken by a margin of
   `PointsAboveTicks`.
2. It starts a hold timer when the close gets back to or above that support.
3. It raises a terminal "enter the trade" flag once the timer has run for
   `HeldAboveTimeSeconds`.
4. It stops the timer when the close drops back below the support. If the close
   has also reached the next ladder entry, it clears all tracking. Re-arming then
   happens on a later bar.

Units:

- Prices are integer ticks, so the margin `PointsAboveTicks * TickSize` is
  `PointsAboveTicks` ticks.
- Bar times are integer seconds.
- The "no timer" value `DateTime.MinValue` is the constant `NoTime`. The logic
  never reads it.

Files:

- `ladder.dfy`, module `LevelLadder`: building the support ladder. It keeps the
  positive inputs and sorts them highest first; duplicates are kept. It also has
  `List.IndexOf` and the "next lower entry" lookup.
- `engine.dfy`, module `ReclaimEngine`: one pure function per trading method
  (`CrossedBelow`, `Reclaim`, `Process`, `OnBar`, and `Initial` for the reset
  state), a `Run` over a sequence of bars, the invariant `Inv`, and the lemmas
  about them.
- `indicator.dfy`, module `Indicator`: the class `ReclaimLevelsIndicator`. It has
  the source's six state fields, the ladder as a `seq<int>` field and the
  configuration fields. Its methods update the fields in place. Each method is
  proved to produce the state the matching `ReclaimEngine` function describes,
  and `OnBarUpdate` keeps the invariant.
- `scenarios.dfy`, module `ReclaimScenarios`: concrete runs with the default
  configuration (6855, 6859, 6866 points, 8 ticks, 270 s).

In these places the code does something other than a natural reading of the
source and its comments suggests; the model follows the code:

- **Re-arming is not immediate.** The comment at `ReclaimLevelsIndicator.cs:361`,
  "Reset and go back to Condition #1 with new level", suggests that the lower
  support is armed at once. The code only clears the state there
  (`ResetTradingLogic`). The next bar rescans the ladder from the top, so it may
  re-arm the same, higher support (`ResetThenRearmOnLaterBar`).
- **The timer restarts on every recovery.** The field comment at line 41,
  "Track if level was reclaimed", suggests that this flag gates the timer. Nothing
  reads `hasReclaimedLevel`. The timer starts whenever it is stopped and the close
  is at or above the armed level, so after a shallow dip the hold is measured
  again from the new start (`ShallowDipRestartsTimer`).
- **Duplicates are kept.** The comment at line 99 speaks of sorting "highest to
  lowest", but the sort does not de-duplicate. Two equal inputs both stay, so the
  ladder is non-increasing rather than strictly descending
  (`DropsNonPositiveKeepsDuplicates`).
- **An unknown armed level reads the top entry.** If the armed level were absent
  from the ladder, `IndexOf` would give -1 and the drop test would read the first
  entry (`NextLower`). The invariant `Inv` rules this case out.

## Model

| member | source | states |
|---|---|---|
| `LevelLadder.Positives` | ReclaimLevelsIndicator.cs:94-97 | the kept entries are all positive; each positive value keeps its multiplicity and no non-positive value remains |
| `LevelLadder.KeptOfThree` | ReclaimLevelsIndicator.cs:94-97 | the list the three guarded `Add` calls build equals the general filter `Positives` of the three inputs |
| `LevelLadder.Insert` | ReclaimLevelsIndicator.cs:101 | inserting into a non-increasing list keeps it non-increasing and adds exactly that value to its multiset |
| `LevelLadder.SortDescending` | ReclaimLevelsIndicator.cs:101 | the sort with comparison `b.CompareTo(a)` gives a non-increasing permutation of its input |
| `LevelLadder.NonIncreasingPermutationUnique` | ReclaimLevelsIndicator.cs:101 | two non-increasing sequences with the same multiset are equal, so the unstable library sort gives exactly `SortDescending` |
| `LevelLadder.Ladder` | ReclaimLevelsIndicator.cs:94-101 | the configured ladder is non-increasing, all positive, and holds the positive inputs as a multiset |
| `LevelLadder.IndexOf` | ReclaimLevelsIndicator.cs:354 | `List.IndexOf`: -1 exactly when the value is absent, otherwise the first position holding it |
| `LevelLadder.NextLower` | ReclaimLevelsIndicator.cs:354-357 | for a ladder member: a result exists exactly when the member's first occurrence is not the last entry, and it is the entry right after that occurrence, not above the level on a non-increasing ladder; for an absent level the first entry is read (IndexOf gives -1) |
| `Indicator.ReclaimLevelsIndicator.AddIfPositive` | ReclaimLevelsIndicator.cs:95-97 | appends the level exactly when it is positive |
| `Indicator.ReclaimLevelsIndicator.Configure` | ReclaimLevelsIndicator.cs:94-101 | the rebuilt list is `Ladder` of the three inputs: non-increasing, all positive, the positive inputs as a multiset; from the initial state the object invariant holds |
| `Indicator.ReclaimLevelsIndicator.constructor` | ReclaimLevelsIndicator.cs:37-42 | the six state fields start with their declared initial values and the invariant holds |
| `Indicator.ReclaimLevelsIndicator.OnBarUpdate` | ReclaimLevelsIndicator.cs:110-121 | the new state is `OnBar` of the old state and the bar, and the object invariant is preserved |
| `Indicator.ReclaimLevelsIndicator.ProcessTradingLogic` | ReclaimLevelsIndicator.cs:248-268 | the new state is `Process` of the old one: nothing after entry, otherwise condition 1 or condition 2 |
| `Indicator.ReclaimLevelsIndicator.CheckCondition1CrossedBelow` | ReclaimLevelsIndicator.cs:273-295 | the indexed scan with early break arms exactly the level `FirstBroken` picks, or changes nothing |
| `Indicator.ReclaimLevelsIndicator.CheckCondition2Reclaim` | ReclaimLevelsIndicator.cs:300-367 | the new state is `Reclaim` of the old one: timer start, hold check, or timer stop with reset at the next lower entry |
| `Indicator.ReclaimLevelsIndicator.ResetTradingLogic` | ReclaimLevelsIndicator.cs:372-384 | every state field is back to its initial value |
| `ReclaimEngine.FirstBroken` | ReclaimLevelsIndicator.cs:276-294 | the result is the first ladder position whose level is broken by the margin, with none broken before it; no result means no entry is broken |
| `ReclaimEngine.CrossedBelow` | ReclaimLevelsIndicator.cs:273-295 | the crossed flag becomes set exactly when some ladder entry is broken by the margin; a changed state arms a broken ladder member; the timer, reclaimed and entered fields are untouched (the exact choice is `ArmsHighestBrokenLevel`) |
| `ReclaimEngine.Reclaim` | ReclaimLevelsIndicator.cs:300-367 | the armed level and crossed flag survive unless all tracking is cleared, which only a drop below the level with the timer running does; the timer starts only at or above the level, at the bar time; a trade is entered only from a running timer that has lasted the hold time |
| `ReclaimEngine.Process` | ReclaimLevelsIndicator.cs:248-268 | an entered state is left unchanged; the crossed flag is cleared only by the full reset to the initial state |
| `ReclaimEngine.OnBar` | ReclaimLevelsIndicator.cs:110-121 | a bar with `CurrentBar < 1` leaves the state unchanged (the other bars are `Process`) |
| `ReclaimEngine.Run` | ReclaimLevelsIndicator.cs:110-121 | a sequence of bars that are all warm-up bars leaves the state unchanged |
| `ReclaimEngine.EnteredIsTerminal` | ReclaimLevelsIndicator.cs:255-267 | once the trade is entered, a bar leaves all state unchanged |
| `ReclaimEngine.ArmsHighestBrokenLevel` | ReclaimLevelsIndicator.cs:273-295 | when not crossed, a bar arms the first broken ladder entry with no earlier entry broken, or changes nothing if none is broken; on a non-increasing ladder the armed level is at least every broken entry |
| `ReclaimEngine.TimerStartsOnRecovery` | ReclaimLevelsIndicator.cs:303-317 | armed with the timer stopped and the close at or above the level: the timer runs from the bar time, the level counts as reclaimed, the armed level is kept |
| `ReclaimEngine.TimerRunningAbove` | ReclaimLevelsIndicator.cs:319-337 | timer running and close at or above the level: the start time is kept, the trade is entered exactly when the elapsed time is at least the hold time (inclusive), in which case only the entered flag is set and the timer stopped; otherwise nothing changes |
| `ReclaimEngine.DropWithTimerRunning` | ReclaimLevelsIndicator.cs:340-366 | timer running and close below the level: the timer stops; if the next ladder entry exists and the close is at or below it, all tracking is cleared, otherwise the armed level and crossed flag are kept |
| `ReclaimEngine.DropWithTimerStopped` | ReclaimLevelsIndicator.cs:303-366 | armed with the timer stopped and close below the level: nothing changes, however far below the lower entries the close is |
| `ReclaimEngine.EntryNeedsRunningTimer` | ReclaimLevelsIndicator.cs:306-337 | a bar that finds the timer stopped never enters the trade |
| `ReclaimEngine.InitialInv` | ReclaimLevelsIndicator.cs:37-42 | the initial state satisfies the invariant on any all-positive ladder |
| `ReclaimEngine.ArmedLevelIsPositive` | ReclaimLevelsIndicator.cs:263 | under the invariant an armed level is positive, so the `currentMajSupportLevel > 0` guard always holds |
| `ReclaimEngine.OnBarKeepsInv` | ReclaimLevelsIndicator.cs:248-384 | every bar keeps: timer running implies crossed and reclaimed; crossed iff the level is a ladder member; reclaimed implies crossed; entered implies timer stopped, crossed and reclaimed |
| `ReclaimEngine.RunKeepsInv` | ReclaimLevelsIndicator.cs:110-121 | any sequence of bars keeps the invariant |
| `ReclaimEngine.RunAfterEntryIsInert` | ReclaimLevelsIndicator.cs:255 | after entry, any sequence of bars leaves the state unchanged |
| `ReclaimEngine.EntryIsPermanent` | ReclaimLevelsIndicator.cs:255-267 | if a prefix of a bar sequence enters the trade, the rest of the sequence changes nothing |
| `ReclaimEngine.EmptyLadderIdle` | ReclaimLevelsIndicator.cs:276-294 | with no positive support configured, no level is ever armed, the timer never runs and no trade is entered, over any bars |
| `ReclaimScenarios.DefaultLadder` | ReclaimLevelsIndicator.cs:75-77 | the default supports 6855, 6859, 6866 give the ladder 6866, 6859, 6855 |
| `ReclaimScenarios.DropsNonPositiveKeepsDuplicates` | ReclaimLevelsIndicator.cs:94-101 | a zero input is dropped and two equal inputs both stay |
| `ReclaimScenarios.HighestBrokenWinsThenEntry` | ReclaimLevelsIndicator.cs:276-337 | a close below all three supports arms 6866; after recovery the trade is not entered at 269 s and is entered at exactly 270 s; later bars change nothing |
| `ReclaimScenarios.ResetThenRearmOnLaterBar` | ReclaimLevelsIndicator.cs:354-384 | a fall to the next support clears everything on that bar, and the next bar re-arms 6866, not 6859 |
| `ReclaimScenarios.ShallowDipRestartsTimer` | ReclaimLevelsIndicator.cs:303-351 | a dip above the next support only stops the timer; the next recovery restarts it, and the hold is counted from the restart |

## Left out

- Chart drawing and logging are not modelled. This covers `DrawAllLevels`, the
  four text-drawing methods, the drawing tags, `RemoveDrawObject` and `Print`.
  They are host rendering and output calls and do not affect the state.
- The reclaim levels, `LowOfYesterday` and `LowOf2DaysAgo` are not modelled.
  They are display-only, and the trading logic never reads them.
- `stopDown` and `StopDownTicks` are not modelled. The value is computed but
  never used.
- The NinjaScript lifecycle is not modelled: the `SetDefaults` and `DataLoaded`
  branches, the property attributes and the generated indicator cache. These are
  host framework code. The host's validation of `PointsAboveTicks` and
  `HeldAboveTimeSeconds` (at least 1) is not needed by any proof, so it is not
  required.
- `double` prices and `DateTime`/`TimeSpan` arithmetic are not modelled. Prices
  are integer ticks and times are integer seconds. The floating-point rounding of
  `PointsAboveTicks * TickSize` and of `TotalSeconds` is not captured.
- Re-running `Configure` after bars have been processed is not covered. The
  invariant is re-established only from the initial state, which is the only
  state the host configures from.
