// Concrete runs with the indicator's default configuration, expressed in ticks
// of 0.25 points: supports 6855, 6859 and 6866 points, a margin of 8 ticks
// (2 points) and a hold time of 270 seconds.

module ReclaimScenarios {
  import opened LevelLadder
  import opened ReclaimEngine

  const S1: int := 6855 * 4
  const S2: int := 6859 * 4
  const S3: int := 6866 * 4
  const Margin: int := 8
  const Held: int := 270

  /** The default supports, given lowest first, form the ladder highest first. */
  lemma DefaultLadder()
    ensures Ladder(S1, S2, S3) == [S3, S2, S1]
  {
    LadderOfThree(S1, S2, S3);
    KeptDefault();
    SortDefault();
  }

  lemma KeptDefault()
    ensures KeptOfThree(S1, S2, S3) == [S1, S2, S3]
  {
  }

  lemma SortDefault()
    ensures SortDescending([S1, S2, S3]) == [S3, S2, S1]
  {
    assert [S1, S2, S3][1..] == [S2, S3];
    SortedPair();
    InsertLowest();
  }

  lemma InsertLowest()
    ensures Insert(S1, [S3, S2]) == [S3, S2, S1]
  {
    assert [S3, S2][1..] == [S2];
    assert [S2][1..] == [];
    assert Insert(S1, [S2]) == [S2, S1];
  }

  lemma SortedPair()
    ensures SortDescending([S2, S3]) == [S3, S2]
  {
    assert [S2, S3][1..] == [S3];
    assert [S3][1..] == [];
    assert SortDescending([S3]) == [S3];
    assert Insert(S2, [S3]) == [S3] + Insert(S2, []);
  }

  /** A non-positive input is dropped, and a duplicate is kept. */
  lemma DropsNonPositiveKeepsDuplicates()
    ensures Ladder(S2, 0, S2) == [S2, S2]
  {
    LadderOfThree(S2, 0, S2);
    assert KeptOfThree(S2, 0, S2) == [S2, S2];
    assert [S2, S2][1..] == [S2];
    assert SortDescending([S2]) == [S2];
  }

  /**
   * A close 64 ticks (16 points) under the top support breaks all three; the
   * top one is armed. A recovery starts the timer, and a bar exactly 270 seconds later
   * enters the trade; later bars change nothing.
   */
  lemma HighestBrokenWinsThenEntry()
    ensures var levels := [S3, S2, S1];
      var armed := OnBar(Initial, levels, Margin, Held, Bar(1, S3 - 64, 100));
      var started := OnBar(armed, levels, Margin, Held, Bar(2, S3 + 16, 160));
      var early := OnBar(started, levels, Margin, Held, Bar(3, S3 + 4, 429));
      var entered := OnBar(early, levels, Margin, Held, Bar(4, S3, 430));
      && armed == Initial.(hasCrossedBelowByPoints := true, currentMajSupportLevel := S3)
      && started.isTimerRunning && started.timerStartTime == 160
      && early == started
      && entered.hasEnteredTrade && !entered.isTimerRunning
      && OnBar(entered, levels, Margin, Held, Bar(5, S1 - 100, 900)) == entered
  {
    var levels := [S3, S2, S1];
    assert BrokenBy(levels[0], S3 - 64, Margin);
  }

  /**
   * With the timer running, a close at or below the next support clears all
   * tracking on that bar; the next bar rescans from the top and re-arms the
   * same top support rather than the lower one.
   */
  lemma ResetThenRearmOnLaterBar()
    ensures var levels := [S3, S2, S1];
      var running := Initial.(hasCrossedBelowByPoints := true, currentMajSupportLevel := S3,
                              isTimerRunning := true, timerStartTime := 160, hasReclaimedLevel := true);
      var reset := OnBar(running, levels, Margin, Held, Bar(3, S3 - 64, 200));
      var rearmed := OnBar(reset, levels, Margin, Held, Bar(4, S3 - 64, 260));
      && reset == Initial
      && rearmed.hasCrossedBelowByPoints && rearmed.currentMajSupportLevel == S3
  {
    var levels := [S3, S2, S1];
    assert IndexOf(levels, S3) == 0;
    assert BrokenBy(levels[0], S3 - 64, Margin);
  }

  /**
   * A shallow dip (above the next support) only stops the timer; the next
   * recovery starts it again at that bar, although the level was reclaimed
   * before, so the hold is measured from the new start.
   */
  lemma ShallowDipRestartsTimer()
    ensures var levels := [S3, S2, S1];
      var running := Initial.(hasCrossedBelowByPoints := true, currentMajSupportLevel := S3,
                              isTimerRunning := true, timerStartTime := 160, hasReclaimedLevel := true);
      var dipped := OnBar(running, levels, Margin, Held, Bar(3, S3 - 12, 200));
      var restarted := OnBar(dipped, levels, Margin, Held, Bar(4, S3 + 8, 300));
      var notYet := OnBar(restarted, levels, Margin, Held, Bar(5, S3 + 8, 569));
      var entered := OnBar(notYet, levels, Margin, Held, Bar(6, S3 + 8, 570));
      && dipped == running.(isTimerRunning := false, timerStartTime := NoTime)
      && restarted.isTimerRunning && restarted.timerStartTime == 300
      && !notYet.hasEnteredTrade
      && entered.hasEnteredTrade
  {
    var levels := [S3, S2, S1];
    assert IndexOf(levels, S3) == 0;
  }
}
