/** The day/action/scoring engine of the Dream Story mini-game: the game-state record,
    the updaters that replace it, and the component that holds it together with the
    two pending dialogs (the action confirmation and the outside event). */
module Engine {
  import opened Rules
  import opened Rooms
  import opened Clock

  /** The game-state record. `gameTime` counts minutes since midnight of the first
      game day; `dailyActions` holds the actions whose flag is set for today. */
  datatype GameState = GameState(
    score: int,
    currentDay: int,
    gameTime: nat,
    soundEnabled: bool,
    musicEnabled: bool,
    currentRoom: string,
    alex: Alex,
    dailyActions: set<ActionId>)

  /** The confirmation dialog: whether it is shown and the action it would apply. */
  datatype Confirmation = Confirmation(show: bool, actionId: ActionId)

  /** The closed confirmation dialog, which keeps `sleep` as its action. */
  const ClosedConfirmation: Confirmation := Confirmation(false, Sleep)

  /** The consequence text shown after an outside event. */
  datatype Consequence = Blank | MadeFriends | LostSleep

  /** The outside-event dialog: whether it is shown, its consequence text and the
      points it will award. */
  datatype OutsideAction = OutsideAction(show: bool, consequence: Consequence, points: int)

  const ClosedOutsideAction: OutsideAction := OutsideAction(false, Blank, 0)

  /** What a click on an action leads to. */
  datatype ClickOutcome = AlreadyDone | WentOutside | AwaitingConfirmation

  /** The character at the start: every stat 50, mood stored as happy. */
  const StartAlex: Alex := Alex(50, 50, 50, 50, 50, Happy)

  /** The starting game state, with the given audio toggles. */
  function Initial(soundEnabled: bool, musicEnabled: bool): GameState {
    GameState(0, 1, StartTime, soundEnabled, musicEnabled, "bedroom", StartAlex, {})
  }

  /** What every reachable state satisfies: the score is not negative, the day
      counter follows the calendar date of the game clock, and every stat is in
      [0, 100]. */
  predicate WellFormed(s: GameState) {
    s.score >= 0 && s.currentDay == 1 + DayIndex(s.gameTime) && InRange(s.alex)
  }

  /** The stored mood agrees with the stats. */
  predicate MoodCurrent(s: GameState) {
    s.alex.mood == MoodOf(s.alex)
  }

  /** The starting state is well formed, but its stored mood is not the one its
      stats give: the mood is recomputed only by an action or an outside event. */
  lemma InitialMoodIsStale(soundEnabled: bool, musicEnabled: bool)
    ensures WellFormed(Initial(soundEnabled, musicEnabled))
    ensures !MoodCurrent(Initial(soundEnabled, musicEnabled))
    ensures MoodOf(StartAlex) == Relaxed
  {
  }

  // ---------------------------------------------------------------------------
  // Applying an action's deltas

  /** The value of stat `s` after the delta list `d`: clamped old value plus the
      delta when `s` is listed, the old value otherwise. */
  function Touched(a: Alex, d: seq<(Stat, int)>, s: Stat): int {
    match Lookup(d, s)
    case None => a.Get(s)
    case Some(v) => Clamp(a.Get(s) + v)
  }

  /** The character after the delta list `d`, stat by stat. */
  function Applied(a: Alex, d: seq<(Stat, int)>): (r: Alex)
    ensures r.mood == a.mood
    ensures forall s :: r.Get(s) == Touched(a, d, s)
  {
    Alex(Touched(a, d, Health), Touched(a, d, Energy), Touched(a, d, SleepQuality),
         Touched(a, d, Relationships), Touched(a, d, Productivity), a.mood)
  }

  /** The loop of confirmAction over the effect entries: each listed stat (every
      entry names a key of the record) becomes its clamped sum with the delta. */
  method ApplyEffects(a: Alex, d: seq<(Stat, int)>) returns (r: Alex)
    requires DistinctStats(d)
    ensures r == Applied(a, d)
  {
    r := a;
    var i := 0;
    while i < |d|
      invariant 0 <= i <= |d|
      invariant r.mood == a.mood
      invariant forall s :: r.Get(s) == Touched(a, d[..i], s)
    {
      var (key, value) := d[i];
      assert d[..i + 1][..i] == d[..i];
      assert Lookup(d[..i], key) == None;
      r := r.With(key, Clamp(r.Get(key) + value));
      i := i + 1;
    }
    assert d[..i] == d;
    var e := Applied(a, d);
    assert r.Get(Health) == e.Get(Health) && r.Get(Energy) == e.Get(Energy);
    assert r.Get(SleepQuality) == e.Get(SleepQuality) && r.Get(Relationships) == e.Get(Relationships);
    assert r.Get(Productivity) == e.Get(Productivity);
  }

  /** The deltas never push a stat out of [0, 100], and a stat with no delta,
      productivity in the table's case, keeps its value. */
  lemma AppliedKeepsRange(a: Alex, d: seq<(Stat, int)>)
    requires forall k :: 0 <= k < |d| ==> d[k].0 != Productivity
    ensures InRange(a) ==> InRange(Applied(a, d))
    ensures Applied(a, d).productivity == a.productivity
  {
    var r := Applied(a, d);
    assert Lookup(d, Productivity) == None;
    assert r.Get(Productivity) == a.Get(Productivity);
  }

  /** The character after action `id`: stats not listed for the action keep their
      value (so productivity never changes), listed stats become clamp(old + delta),
      the mood is recomputed from the new stats, and stats in [0, 100] stay there. */
  function ActedAlex(a: Alex, id: ActionId): (r: Alex)
    ensures forall st :: r.Get(st) == Touched(a, EffectOf(id).deltas, st)
    ensures r.productivity == a.productivity
    ensures r.mood == MoodOf(r)
    ensures InRange(a) ==> InRange(r)
  {
    var d := EffectOf(id).deltas;
    var stats := Applied(a, d);
    AppliedKeepsRange(a, d);
    var r := stats.(mood := MoodOf(stats));
    assert forall st :: r.Get(st) == stats.Get(st);
    r
  }

  /** The action's update of the game state, as confirmAction writes it. The score
      grows by the action's points (floored at 0), the action's flag is set and no
      other, stats not listed for the action keep their value (so productivity
      never changes), listed stats become clamp(old + delta), the mood is
      recomputed, and room, day, clock and audio toggles are untouched. */
  function Confirmed(s: GameState, id: ActionId): (r: GameState)
    ensures r.score == Max(0, s.score + EffectOf(id).points)
    ensures s.score >= 0 ==> r.score > s.score
    ensures r.dailyActions == s.dailyActions + {id}
    ensures forall st :: r.alex.Get(st) == Touched(s.alex, EffectOf(id).deltas, st)
    ensures r.alex.productivity == s.alex.productivity
    ensures MoodCurrent(r)
    ensures r.currentRoom == s.currentRoom && r.currentDay == s.currentDay && r.gameTime == s.gameTime
    ensures r.soundEnabled == s.soundEnabled && r.musicEnabled == s.musicEnabled
    ensures WellFormed(s) ==> WellFormed(r)
  {
    var acted := ActedAlex(s.alex, id);
    s.(score := Max(0, s.score + EffectOf(id).points),
       alex := acted,
       dailyActions := s.dailyActions + {id})
  }

  // ---------------------------------------------------------------------------
  // The outside event

  /** The raw `+=` / `-=` changes of the outside event, before clamping: a gain of
      points means relationships +15 and health +5, anything else means sleep
      quality -20 and energy -15. */
  function Shifted(a: Alex, points: int): Alex {
    if points > 0 then a.(relationships := a.relationships + 15, health := a.health + 5)
    else a.(sleepQuality := a.sleepQuality - 20, energy := a.energy - 15)
  }

  /** Every numeric stat clamped to [0, 100]. */
  function ClampedAll(a: Alex): (r: Alex)
    ensures InRange(r) && r.mood == a.mood
    ensures forall s :: r.Get(s) == Clamp(a.Get(s))
  {
    Alex(Clamp(a.health), Clamp(a.energy), Clamp(a.sleepQuality), Clamp(a.relationships),
         Clamp(a.productivity), a.mood)
  }

  /** The clamp loop of handleOutsideActionOK over the record's keys; the one key
      that is not a number, the mood, is skipped. */
  method ClampAll(a: Alex) returns (r: Alex)
    ensures r == ClampedAll(a)
  {
    r := a;
    var i := 0;
    while i < |AllStats|
      invariant 0 <= i <= |AllStats|
      invariant r.mood == a.mood
      invariant forall k :: 0 <= k < i ==> r.Get(AllStats[k]) == Clamp(a.Get(AllStats[k]))
      invariant forall k :: i <= k < |AllStats| ==> r.Get(AllStats[k]) == a.Get(AllStats[k])
    {
      var key := AllStats[i];
      r := r.With(key, Clamp(r.Get(key)));
      i := i + 1;
    }
    var e := ClampedAll(a);
    assert r.Get(AllStats[0]) == e.Get(Health) && r.Get(AllStats[1]) == e.Get(Energy);
    assert r.Get(AllStats[2]) == e.Get(SleepQuality) && r.Get(AllStats[3]) == e.Get(Relationships);
    assert r.Get(AllStats[4]) == e.Get(Productivity);
  }

  /** The outside event's update of the game state: the good or the bad stat change
      chosen by the sign of `points`, every stat clamped, the mood recomputed, the
      score moved by `points` and floored at 0, relax marked as done and the
      character back in the living room. */
  function OutsideResolved(s: GameState, points: int): (r: GameState)
    ensures InRange(r.alex) && MoodCurrent(r)
    ensures points > 0 ==>
              r.alex.relationships == Clamp(s.alex.relationships + 15) && r.alex.health == Clamp(s.alex.health + 5)
              && r.alex.sleepQuality == Clamp(s.alex.sleepQuality) && r.alex.energy == Clamp(s.alex.energy)
    ensures points <= 0 ==>
              r.alex.sleepQuality == Clamp(s.alex.sleepQuality - 20) && r.alex.energy == Clamp(s.alex.energy - 15)
              && r.alex.relationships == Clamp(s.alex.relationships) && r.alex.health == Clamp(s.alex.health)
    ensures r.alex.productivity == Clamp(s.alex.productivity)
    ensures r.score == Max(0, s.score + points) && r.score >= 0
    ensures r.dailyActions == s.dailyActions + {Relax}
    ensures r.currentRoom == ReturnRoom && CurrentRoom(r.currentRoom).actions == [Relax]
    ensures r.currentDay == s.currentDay && r.gameTime == s.gameTime
    ensures r.soundEnabled == s.soundEnabled && r.musicEnabled == s.musicEnabled
    ensures WellFormed(s) ==> WellFormed(r)
  {
    var stats := ClampedAll(Shifted(s.alex, points));
    var newAlex := stats.(mood := MoodOf(stats));
    assert Known(ReturnRoom) by { assert Catalogue[1].id == ReturnRoom; }
    assert forall st :: newAlex.Get(st) == stats.Get(st);
    s.(score := Max(0, s.score + points),
       alex := newAlex,
       dailyActions := s.dailyActions + {Relax},
       currentRoom := ReturnRoom)
  }

  // ---------------------------------------------------------------------------
  // Clock tick, reset and the audio toggles

  /** The per-tick update: the clock moves on a quarter of an hour; when the date
      changes the day counter goes up by one and every daily flag is cleared,
      otherwise nothing but the clock changes. */
  function Ticked(s: GameState): (r: GameState)
    ensures r.gameTime == s.gameTime + TickMinutes
    ensures DayIndex(r.gameTime) == DayIndex(s.gameTime) ==> r == s.(gameTime := r.gameTime)
    ensures DayIndex(r.gameTime) != DayIndex(s.gameTime) ==>
              r == s.(gameTime := r.gameTime, currentDay := s.currentDay + 1, dailyActions := {})
    ensures WellFormed(s) ==> WellFormed(r)
  {
    var next := s.gameTime + TickMinutes;
    TickCrossesMidnight(s.gameTime);
    if DayIndex(next) != DayIndex(s.gameTime) then
      s.(gameTime := next, currentDay := s.currentDay + 1, dailyActions := {})
    else
      s.(gameTime := next)
  }

  /** `n` successive ticks. */
  function TickN(s: GameState, n: nat): GameState
    decreases n
  {
    if n == 0 then s else Ticked(TickN(s, n - 1))
  }

  /** After any number of ticks the clock has moved a quarter of an hour per tick,
      and score, stats, mood, room and toggles are as they were. */
  lemma {:induction false} TicksMoveClock(s: GameState, n: nat)
    ensures TickN(s, n).gameTime == s.gameTime + n * TickMinutes
    ensures TickN(s, n).score == s.score && TickN(s, n).alex == s.alex && TickN(s, n).currentRoom == s.currentRoom
    ensures TickN(s, n).soundEnabled == s.soundEnabled && TickN(s, n).musicEnabled == s.musicEnabled
  {
    if n > 0 {
      TicksMoveClock(s, n - 1);
    }
  }

  /** After any number of ticks the day counter has moved by exactly the number of
      midnights the clock crossed, and the flags are cleared if it crossed one and
      kept otherwise. */
  lemma {:induction false} TicksFollowCalendar(s: GameState, n: nat)
    ensures DayIndex(s.gameTime) <= DayIndex(TickN(s, n).gameTime)
    ensures TickN(s, n).currentDay == s.currentDay + DayIndex(TickN(s, n).gameTime) - DayIndex(s.gameTime)
    ensures DayIndex(TickN(s, n).gameTime) == DayIndex(s.gameTime) ==> TickN(s, n).dailyActions == s.dailyActions
    ensures DayIndex(TickN(s, n).gameTime) != DayIndex(s.gameTime) ==> TickN(s, n).dailyActions == {}
  {
    if n > 0 {
      TicksFollowCalendar(s, n - 1);
      var prev := TickN(s, n - 1);
      TickCrossesMidnight(prev.gameTime);
      assert TickN(s, n) == Ticked(prev);
    }
  }

  /** resetGame: every field back to its starting value, except the two audio
      toggles, which are kept. */
  function ResetFrom(s: GameState): (r: GameState)
    ensures r.score == 0 && r.currentDay == 1 && r.currentRoom == "bedroom"
    ensures DayIndex(r.gameTime) == 0 && MinuteOfDay(r.gameTime) == 7 * 60
    ensures forall st :: r.alex.Get(st) == 50
    ensures r.alex.mood == Happy && r.dailyActions == {}
    ensures r.soundEnabled == s.soundEnabled && r.musicEnabled == s.musicEnabled
    ensures WellFormed(r)
  {
    Initial(s.soundEnabled, s.musicEnabled)
  }

  /** Resetting twice is resetting once, and a reset of the starting state gives
      the starting state back. */
  lemma ResetIdempotent(s: GameState)
    ensures ResetFrom(ResetFrom(s)) == ResetFrom(s)
    ensures ResetFrom(Initial(s.soundEnabled, s.musicEnabled)) == Initial(s.soundEnabled, s.musicEnabled)
  {
  }

  /** toggleMusic: flips the music flag and nothing else. */
  function ToggledMusic(s: GameState): (r: GameState)
    ensures r.musicEnabled != s.musicEnabled
    ensures r.(musicEnabled := s.musicEnabled) == s
  {
    s.(musicEnabled := !s.musicEnabled)
  }

  /** toggleSound: flips the sound flag and nothing else. */
  function ToggledSound(s: GameState): (r: GameState)
    ensures r.soundEnabled != s.soundEnabled
    ensures r.(soundEnabled := s.soundEnabled) == s
  {
    s.(soundEnabled := !s.soundEnabled)
  }

  /** Each toggle applied twice is the identity. */
  lemma TogglesAreInvolutions(s: GameState)
    ensures ToggledMusic(ToggledMusic(s)) == s
    ensures ToggledSound(ToggledSound(s)) == s
  {
  }

  // ---------------------------------------------------------------------------
  // The component

  /** The game component: the game-state record and the two pending dialogs. The
      click on an action and its confirmation are separate steps; the action to
      apply waits in `confirmation` between them. */
  class DreamStoryGame {
    var gameState: GameState
    var confirmation: Confirmation
    var outsideAction: OutsideAction

    ghost predicate Valid()
      reads this
    {
      WellFormed(gameState)
    }

    constructor ()
      ensures Valid()
      ensures gameState == Initial(true, true)
      ensures confirmation == ClosedConfirmation && outsideAction == ClosedOutsideAction
    {
      gameState := Initial(true, true);
      confirmation := ClosedConfirmation;
      outsideAction := ClosedOutsideAction;
    }

    /** handleActionClick. `goOut`, `madeFriends` and `gainsPoints` are the outcomes
        of the three independent coin tosses (each "a random draw exceeds 0.5"):
        going out is considered only for relax, and the consequence text and the
        points are drawn separately. A click never changes the game state: an
        action already done today only gives feedback; otherwise it opens the
        outside event or the confirmation dialog. */
    method ActionClick(id: ActionId, goOut: bool, madeFriends: bool, gainsPoints: bool)
      returns (outcome: ClickOutcome)
      requires Valid()
      modifies this
      ensures Valid() && gameState == old(gameState)
      ensures id in gameState.dailyActions ==>
                outcome == AlreadyDone
                && confirmation == old(confirmation) && outsideAction == old(outsideAction)
      ensures id !in gameState.dailyActions && id == Relax && goOut ==>
                outcome == WentOutside && confirmation == old(confirmation)
                && outsideAction == OutsideAction(true, if madeFriends then MadeFriends else LostSleep,
                                                  if gainsPoints then 15 else -10)
      ensures id !in gameState.dailyActions && !(id == Relax && goOut) ==>
                outcome == AwaitingConfirmation
                && confirmation == Confirmation(true, id) && outsideAction == old(outsideAction)
    {
      if id in gameState.dailyActions {
        return AlreadyDone;
      }
      if id == Relax && goOut {
        outsideAction := OutsideAction(true, if madeFriends then MadeFriends else LostSleep,
                                       if gainsPoints then 15 else -10);
        return WentOutside;
      }
      confirmation := Confirmation(true, id);
      outcome := AwaitingConfirmation;
    }

    /** confirmAction. Cancelling only closes the dialog. Confirming applies the
        pending action, without checking its daily flag again, and closes the
        dialog. */
    method ConfirmAction(confirmed: bool)
      requires Valid()
      modifies this
      ensures Valid()
      ensures confirmation == ClosedConfirmation && outsideAction == old(outsideAction)
      ensures !confirmed ==> gameState == old(gameState)
      ensures confirmed ==> gameState == Confirmed(old(gameState), old(confirmation).actionId)
    {
      if !confirmed {
        confirmation := ClosedConfirmation;
        return;
      }
      var actionId := confirmation.actionId;
      ghost var expected := Confirmed(gameState, actionId);
      var effects := EffectsFor(Key(actionId));
      assert effects == EffectOf(actionId);
      var newAlex := ApplyEffects(gameState.alex, effects.deltas);
      newAlex := newAlex.(mood := MoodOf(newAlex));
      assert newAlex == expected.alex;
      var newScore := Max(0, gameState.score + effects.points);
      gameState := gameState.(score := newScore, alex := newAlex,
                              dailyActions := gameState.dailyActions + {actionId});
      assert gameState == expected;
      confirmation := ClosedConfirmation;
    }

    /** handleOutsideActionOK: applies the pending outside event and closes its
        dialog. */
    method OutsideActionOK()
      requires Valid()
      modifies this
      ensures Valid()
      ensures gameState == OutsideResolved(old(gameState), old(outsideAction).points)
      ensures outsideAction == ClosedOutsideAction && confirmation == old(confirmation)
    {
      var points := outsideAction.points;
      var newAlex := gameState.alex;
      if points > 0 {
        newAlex := newAlex.(relationships := newAlex.relationships + 15);
        newAlex := newAlex.(health := newAlex.health + 5);
      } else {
        newAlex := newAlex.(sleepQuality := newAlex.sleepQuality - 20);
        newAlex := newAlex.(energy := newAlex.energy - 15);
      }
      newAlex := ClampAll(newAlex);
      newAlex := newAlex.(mood := MoodOf(newAlex));
      gameState := gameState.(score := Max(0, gameState.score + points), alex := newAlex,
                              dailyActions := gameState.dailyActions + {Relax},
                              currentRoom := ReturnRoom);
      outsideAction := ClosedOutsideAction;
    }

    /** One step of the interval timer. */
    method Tick()
      requires Valid()
      modifies this
      ensures Valid() && gameState == Ticked(old(gameState))
      ensures confirmation == old(confirmation) && outsideAction == old(outsideAction)
    {
      gameState := Ticked(gameState);
    }

    /** navigateRoom: moves one room left or right around the catalogue. */
    method NavigateRoom(dir: Direction)
      requires Valid()
      modifies this
      ensures Valid() && gameState == old(gameState).(currentRoom := Navigate(old(gameState).currentRoom, dir))
      ensures confirmation == old(confirmation) && outsideAction == old(outsideAction)
    {
      gameState := gameState.(currentRoom := Navigate(gameState.currentRoom, dir));
    }

    /** resetGame: restores the starting state with the current audio toggles and
        closes the confirmation dialog; a pending outside event stays. */
    method ResetGame()
      modifies this
      ensures Valid() && gameState == ResetFrom(old(gameState))
      ensures confirmation == ClosedConfirmation && outsideAction == old(outsideAction)
    {
      gameState := ResetFrom(gameState);
      confirmation := ClosedConfirmation;
    }

    method ToggleMusic()
      requires Valid()
      modifies this
      ensures Valid() && gameState == ToggledMusic(old(gameState))
      ensures confirmation == old(confirmation) && outsideAction == old(outsideAction)
    {
      gameState := ToggledMusic(gameState);
    }

    method ToggleSound()
      requires Valid()
      modifies this
      ensures Valid() && gameState == ToggledSound(old(gameState))
      ensures confirmation == old(confirmation) && outsideAction == old(outsideAction)
    {
      gameState := ToggledSound(gameState);
    }
  }
}
