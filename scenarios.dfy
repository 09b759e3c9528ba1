/** Short plays of the game driven through the component's methods, and two facts
    about the first midnight of a game. */
module Scenarios {
  import opened Rules
  import opened Rooms
  import opened Clock
  import opened Engine

  /** The deltas of sleep, stat by stat. */
  lemma SleepDeltas()
    ensures Lookup(EffectOf(Sleep).deltas, SleepQuality) == Some(25)
    ensures Lookup(EffectOf(Sleep).deltas, Energy) == Some(20)
    ensures Lookup(EffectOf(Sleep).deltas, Health) == Some(10)
    ensures Lookup(EffectOf(Sleep).deltas, Relationships) == None
  {
    var d := EffectOf(Sleep).deltas;
    LookupEntry(d, 0);
    LookupEntry(d, 1);
    LookupEntry(d, 2);
  }

  /** Sleep applied to a fresh game: health 60, energy 70, sleep quality 75, the
      rest 50, score 20, only sleep done, and the recomputed mood is relaxed (the
      mean of the four mood stats is 63.75). */
  lemma SleepOnFreshState(s: GameState)
    requires s == Initial(s.soundEnabled, s.musicEnabled)
    ensures Confirmed(s, Sleep)
            == s.(score := 20, alex := Alex(60, 70, 75, 50, 50, Relaxed), dailyActions := {Sleep})
  {
    SleepDeltas();
  }

  /** Sleep clicked and confirmed in a fresh game. */
  method SleepFromFreshGame() returns (after: GameState)
    ensures after.alex == Alex(60, 70, 75, 50, 50, Relaxed)
    ensures after.score == 20 && after.dailyActions == {Sleep}
    ensures after.currentRoom == "bedroom" && after.currentDay == 1 && after.gameTime == StartTime
  {
    var game := new DreamStoryGame();
    var outcome := game.ActionClick(Sleep, false, false, false);
    assert outcome == AwaitingConfirmation;
    ghost var start := game.gameState;
    game.ConfirmAction(true);
    after := game.gameState;
    SleepOnFreshState(start);
  }

  /** Clicking an action a second time on the same day is refused, and neither
      that click nor a cancelled confirmation changes the game state. */
  method SameActionTwiceInOneDay() returns (second: ClickOutcome, before: GameState, after: GameState)
    ensures second == AlreadyDone && after == before && Sleep in after.dailyActions
  {
    var game := new DreamStoryGame();
    var first := game.ActionClick(Sleep, false, false, false);
    game.ConfirmAction(true);
    before := game.gameState;
    second := game.ActionClick(Sleep, false, false, false);
    var other := game.ActionClick(Eat, false, false, false);
    game.ConfirmAction(false);
    after := game.gameState;
  }

  /** A bad night out after the fresh-game sleep: sleep quality 55, energy 55, the
      score drops from 20 to 10 and the mood stays relaxed. */
  lemma BadNightAfterSleep(s: GameState)
    requires s.score == 20 && s.alex == Alex(60, 70, 75, 50, 50, Relaxed)
    ensures OutsideResolved(s, -10)
            == s.(score := 10, alex := Alex(60, 55, 55, 50, 50, Relaxed),
                  dailyActions := s.dailyActions + {Relax}, currentRoom := ReturnRoom)
  {
  }

  /** The consequence text and the points of an outside event are drawn apart: from
      a fresh game the text can announce new friends while the event costs points,
      and the stat change follows the points, so sleep quality falls to 30 and
      energy to 35, the mood turns tired and the score stays floored at 0. Relax
      is then done and the character is in the living room. */
  method FriendlyTextBadNight() returns (shown: Consequence, after: GameState)
    ensures shown == MadeFriends
    ensures after.alex == Alex(50, 35, 30, 50, 50, Tired)
    ensures after.score == 0 && after.dailyActions == {Relax} && after.currentRoom == ReturnRoom
  {
    var game := new DreamStoryGame();
    var outcome := game.ActionClick(Relax, true, true, false);
    assert outcome == WentOutside;
    shown := game.outsideAction.consequence;
    game.OutsideActionOK();
    after := game.gameState;
  }

  /** From 07:00 on day 1, whatever has been done, the 67th tick still falls on
      day 1 with the flags kept, and the 68th reaches midnight: day 2 begins at
      00:00 and every daily flag is cleared, so every action is open again. */
  lemma FirstMidnight(s: GameState)
    requires s.gameTime == StartTime && s.currentDay == 1
    ensures TickN(s, 67).currentDay == 1 && TickN(s, 67).dailyActions == s.dailyActions
    ensures TickN(s, 68).currentDay == 2 && TickN(s, 68).dailyActions == {}
    ensures MinuteOfDay(TickN(s, 68).gameTime) == 0
  {
    TicksMoveClock(s, 67);
    TicksFollowCalendar(s, 67);
    TicksMoveClock(s, 68);
    TicksFollowCalendar(s, 68);
    assert TickN(s, 67).gameTime == 1425 && DayIndex(1425) == 0;
    assert TickN(s, 68).gameTime == 1440 && DayIndex(1440) == 1;
  }

  /** A well-formed state stays well formed through any number of ticks. */
  lemma {:induction false} TicksKeepWellFormed(s: GameState, n: nat)
    requires WellFormed(s)
    ensures WellFormed(TickN(s, n))
  {
    if n > 0 {
      TicksKeepWellFormed(s, n - 1);
    }
  }
}
