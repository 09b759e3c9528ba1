# Dream Story engine, modelled in Dafny

Dream Story is a small life-simulation mini-game. A character, Alex, has five stats:
health, energy, sleep quality, relationships and productivity. Each starts at 50 and
is kept in [0, 100]. Alex also has a mood that is computed from four of the stats.

The player can do six actions: sleep, eat, exercise, relax, drink water and shower.
Each action can be done once per game day. Doing one awards points and changes some
stats. Relaxing can turn into a night out with a good or bad outcome. A game clock
advances 15 minutes per timer tick. At midnight the day counter goes up and every
daily action opens again. Alex can also move left or right around a ring of five
rooms.

The model has five modules:

- `Rules` (`rules.dfy`): the character record, clamping, the effect table (also
  looked up by string key, with its fallback), and the mood rule.
- `Rooms` (`rooms.dfy`): the five-room catalogue, `findIndex`, the current-room
  lookup and cyclic navigation.
- `Clock` (`clock.dfy`): game time as minutes since midnight of the first game day.
  The calendar date is that count divided by 1440.
- `Engine` (`engine.dfy`), in three parts:
  - the game-state record and the invariant `WellFormed`: score ≥ 0, the day
    counter equals 1 + the clock's day index, and every stat is in [0, 100];
  - the pure updaters that replace the record, as the component's
    `setGameState(prev => …)` calls do;
  - the two loops, which are written as methods, and the class `DreamStoryGame`.
    The class holds the game-state record, the pending confirmation dialog and
    the pending outside-event dialog.
- `Scenarios` (`scenarios.dfy`): short plays driven through the class, and facts
  about the first midnight.

A click and its confirmation are two separate steps. The action waits in the
confirmation dialog between them. Only the click checks the daily flag; confirming
does not check it again. Each random draw ("a random number above 0.5") is a boolean
parameter.

The stored mood is not an invariant. It is recomputed after every action and every
outside event. A fresh or reset game stores `happy`, but its stats (all 50) give
`relaxed` (`InitialMoodIsStale`).

## Model

| member | source | states |
|---|---|---|
| `Rules.Clamp` | src/components/Pages/DreamStoryGame.tsx:433 | the clamp gives a value in [0, 100]: the input itself when it is in range, otherwise the nearer bound |
| `Rules.Lookup` | src/components/Pages/DreamStoryGame.tsx:431-433 | the delta found for a stat is absent exactly when no entry names that stat, and otherwise it is the delta of an entry that names it |
| `Rules.LookupEntry` | src/components/Pages/DreamStoryGame.tsx:431-433 | when no stat is listed twice, looking up an entry's stat gives that entry's delta |
| `Rules.EffectOf` | src/components/Pages/DreamStoryGame.tsx:522-553 | every one of the six table entries awards positive points and changes at least one stat; no entry lists a stat twice; no entry touches productivity |
| `Rules.EffectsFor` | src/components/Pages/DreamStoryGame.tsx:521-556 | the key of each of the six actions finds that action's entry; every other string gets the zero-points, no-delta fallback (prototype property names aside, see Left out) |
| `Rules.MoodOf` | src/components/Pages/DreamStoryGame.tsx:346-352 | comparing the mean of the four mood stats with 70/50/30 is the same as comparing their sum with 280/200/120; both directions are stated for each of the four moods |
| `Rules.MoodMonotone` | src/components/Pages/DreamStoryGame.tsx:346-352 | raising any of the four mood stats never makes the mood worse |
| `Rooms.FindIndex` | src/components/Pages/DreamStoryGame.tsx:358 | the result is the first position holding the id, or -1 exactly when no room has that id |
| `Rooms.CurrentRoom` | src/components/Pages/DreamStoryGame.tsx:558-560 | the result is always a catalogue room: the room with this id when there is one, otherwise the first room |
| `Rooms.NextIndex` | src/components/Pages/DreamStoryGame.tsx:358-365 | from a known room, left is (i + 4) mod 5 and right is (i + 1) mod 5; from an unknown room, left goes to index 4 and right to index 0 |
| `Rooms.Navigate` | src/components/Pages/DreamStoryGame.tsx:354-371 | navigation always lands on a catalogue room: from the room at position k it reaches the room at the next position around the cycle in the chosen direction; from an unknown room, left reaches the last room (bathroom) and right the first (bedroom) |
| `Rooms.CatalogueIdsDistinct` | src/components/Pages/DreamStoryGame.tsx:108-196 | no two catalogue rooms share an id |
| `Rooms.IndexOfCatalogueRoom` | src/components/Pages/DreamStoryGame.tsx:108-196 | no two catalogue rooms share an id, so `findIndex` returns each room's own position |
| `Rooms.LeftRightInverse` | src/components/Pages/DreamStoryGame.tsx:358-370 | left then right, or right then left, returns to a known room; from an unknown room these two sequences end in the first and the last room |
| `Rooms.FiveStepsCycle` | src/components/Pages/DreamStoryGame.tsx:358-370 | five steps in the same direction return to the starting room |
| `Clock.TickCrossesMidnight` | src/components/Pages/DreamStoryGame.tsx:236-240 | a 15-minute tick moves the date by at most one day; it moves it exactly when minute-of-day + 15 ≥ 1440; the time of day wraps modulo 1440 |
| `Engine.InitialMoodIsStale` | src/components/Pages/DreamStoryGame.tsx:81-106 | the starting state is well formed, but its stored mood `happy` is not the mood its stats give (`relaxed`) |
| `Engine.ApplyEffects` | src/components/Pages/DreamStoryGame.tsx:430-435 | the loop over the effect entries sets each listed stat to clamp(old + delta) and leaves the other stats and the mood as they were |
| `Engine.AppliedKeepsRange` | src/components/Pages/DreamStoryGame.tsx:430-435 | with no productivity entry, stats in [0, 100] stay there and productivity keeps its value |
| `Engine.ActedAlex` | src/components/Pages/DreamStoryGame.tsx:428-437 | each stat after the action is `Touched` by the action's deltas (unlisted stats unchanged, listed ones clamp(old + delta)); productivity never changes; the stored mood is the one the new stats give; stats in [0, 100] stay there |
| `Engine.Confirmed` | src/components/Pages/DreamStoryGame.tsx:428-451 | score = max(0, old + points), which is above the old score; only the action's own flag is added; each stat is `Touched` by the action's deltas, so productivity is unchanged; the mood matches the stats; room, day, clock and toggles are unchanged; well-formedness is preserved |
| `Engine.ClampedAll` | src/components/Pages/DreamStoryGame.tsx:486-491 | every stat is clamped and lands in [0, 100]; the mood is kept |
| `Engine.ClampAll` | src/components/Pages/DreamStoryGame.tsx:486-491 | the loop over the record's keys clamps every numeric stat and skips the mood |
| `Engine.OutsideResolved` | src/components/Pages/DreamStoryGame.tsx:475-505 | points > 0: relationships +15 and health +5; otherwise: sleep quality −20 and energy −15; all stats clamped to [0, 100]; the mood matches the stats; score = max(0, old + points); relax marked done; room = living, the room that holds relax; day, clock and toggles unchanged |
| `Engine.Ticked` | src/components/Pages/DreamStoryGame.tsx:235-259 | the clock moves 15 minutes. If the date changes, the day goes up by 1 and all flags are cleared; otherwise only the clock changes. Score, stats, mood and room never change. Well-formedness is preserved. |
| `Engine.TicksMoveClock` | src/components/Pages/DreamStoryGame.tsx:233-261 | after n ticks the clock has moved 15n minutes; score, stats, mood, room and audio toggles are unchanged |
| `Engine.TicksFollowCalendar` | src/components/Pages/DreamStoryGame.tsx:233-261 | after n ticks the date has not gone back, the day counter has risen by exactly the number of midnights crossed, and the flags are cleared if a midnight was crossed and kept otherwise |
| `Engine.ResetFrom` | src/components/Pages/DreamStoryGame.tsx:607-632 | score 0, day 1, clock 07:00 on the first day, bedroom, every stat 50, mood happy, no flags, both audio toggles kept, and the result is well formed |
| `Engine.ResetIdempotent` | src/components/Pages/DreamStoryGame.tsx:604-636 | resetting twice equals resetting once; resetting a starting state gives it back |
| `Engine.ToggledMusic` | src/components/Pages/DreamStoryGame.tsx:638-640 | the music flag flips and nothing else changes |
| `Engine.ToggledSound` | src/components/Pages/DreamStoryGame.tsx:642-644 | the sound flag flips and nothing else changes |
| `Engine.TogglesAreInvolutions` | src/components/Pages/DreamStoryGame.tsx:638-644 | applying either toggle twice is the identity |
| `Engine.DreamStoryGame.constructor` | src/components/Pages/DreamStoryGame.tsx:59-106 | the game starts in the starting state with sound and music on and both dialogs closed |
| `Engine.DreamStoryGame.ActionClick` | src/components/Pages/DreamStoryGame.tsx:373-408 | a click never changes the game state. A flagged action is refused and leaves both dialogs as they were. An unflagged relax whose draw says "go out" opens the outside event, with text and points from two separate draws (+15 or −10). Any other unflagged action opens the confirmation dialog for itself. |
| `Engine.DreamStoryGame.ConfirmAction` | src/components/Pages/DreamStoryGame.tsx:410-469 | cancelling leaves the game state unchanged. Confirming applies `Confirmed` to the pending action and does not check its flag again. Either way the dialog closes. |
| `Engine.DreamStoryGame.OutsideActionOK` | src/components/Pages/DreamStoryGame.tsx:471-519 | the game state becomes `OutsideResolved` with the pending points; the outside dialog closes; the confirmation dialog is untouched |
| `Engine.DreamStoryGame.Tick` | src/components/Pages/DreamStoryGame.tsx:233-261 | the game state becomes `Ticked` of the old state, and it stays well formed |
| `Engine.DreamStoryGame.NavigateRoom` | src/components/Pages/DreamStoryGame.tsx:354-371 | only the current room changes, to the neighbour in the chosen direction |
| `Engine.DreamStoryGame.ResetGame` | src/components/Pages/DreamStoryGame.tsx:604-636 | the game state becomes `ResetFrom` of the old one; the confirmation dialog closes; a pending outside event stays |
| `Engine.DreamStoryGame.ToggleMusic` | src/components/Pages/DreamStoryGame.tsx:638-640 | the game state becomes `ToggledMusic` of the old state |
| `Engine.DreamStoryGame.ToggleSound` | src/components/Pages/DreamStoryGame.tsx:642-644 | the game state becomes `ToggledSound` of the old state |
| `Scenarios.SleepDeltas` | src/components/Pages/DreamStoryGame.tsx:523-527 | sleep changes sleep quality by +25, energy by +20 and health by +10, and leaves relationships alone |
| `Scenarios.SleepOnFreshState` | src/components/Pages/DreamStoryGame.tsx:428-451 | sleep confirmed on a starting state gives score 20, health 60, energy 70, sleep quality 75, relationships and productivity 50, mood relaxed (mean 63.75), and only sleep done |
| `Scenarios.SleepFromFreshGame` | src/components/Pages/DreamStoryGame.tsx:410-451 | sleep from a fresh game gives health 60, energy 70, sleep quality 75, relationships 50, productivity 50, mood relaxed and score 20 |
| `Scenarios.SameActionTwiceInOneDay` | src/components/Pages/DreamStoryGame.tsx:377-386 | clicking an action again on the same day is refused; neither that click nor a cancelled confirmation changes the game state |
| `Scenarios.BadNightAfterSleep` | src/components/Pages/DreamStoryGame.tsx:475-505 | a bad night out after that sleep lowers sleep quality to 55 and energy to 55, drops the score from 20 to 10, keeps the mood relaxed, marks relax done and moves to the living room |
| `Scenarios.FriendlyTextBadNight` | src/components/Pages/DreamStoryGame.tsx:389-505 | from a fresh game the outside event can show the "made new friends" text while its points are −10; the stats follow the points (sleep quality 30, energy 35), the mood turns tired, the score stays floored at 0, relax is done and the room is living |
| `Scenarios.FirstMidnight` | src/components/Pages/DreamStoryGame.tsx:233-253 | from any state at 07:00 on day 1, tick 67 is still day 1 with the flags kept; tick 68 reaches 00:00 of day 2 and clears every flag |
| `Scenarios.TicksKeepWellFormed` | src/components/Pages/DreamStoryGame.tsx:235-259 | any number of ticks keeps a well-formed state well formed |

## Notes on the code

Three facts about the code shape the model:

- Outside event. The two consequence texts announce points: "Ganhou 15 pontos!"
  (line 395) and "caiu 10 pontos" (line 396). The points themselves come from a
  separate draw (line 397), so the text can announce a gain while the event
  costs 10 points. The stat change follows `points > 0` (line 478), not the text.
- Effect lookup. `getActionEffects` ends in a `||` fallback to a zero effect
  (line 555). The parameter's type admits only the six action keys (line 521), so
  the fallback is never reached. `EffectsFor` states both the six lookups and the
  fallback.
- Mood. The starting literal and the reset literal store `'happy'` without
  calling `updateAlexMood` (lines 95 and 621). The stats there, all 50, give
  `relaxed`.

## Left out

- Audio: the audio context, oscillators, background music loading, and
  play/pause. These are browser audio APIs with floating-point gains and
  frequencies.
- Timers: the `setInterval` scheduling and the `setTimeout` resets of feedback
  and animation. The model keeps only the per-tick state update (`Tick`) and
  treats events as serialised calls. React's batching and stale closures are not
  modelled.
- Feedback: the feedback banner, the animation state and the `musicLoaded` flag.
  These are presentation state that the engine never reads.
- `Date` details: time zones, daylight saving time and `toLocaleTimeString`
  formatting. The date check `getDate() !==` is modelled as a change of day index.
  The two agree for 15-minute steps because consecutive days always differ in
  day of month.
- `lastActionTime`: it reads the wall clock, and the engine never reads it back.
- `gameCompleted`: no handler ever updates it.
- `Math.random`: each draw is a boolean parameter. Probabilities are not
  modelled.
- Presentation: the message strings, the confirmation dialog's action and room
  text, the sprite and emoji mapping, and the colour helpers. The outside
  event's consequence text is kept only as the choice between its two messages.
- Rendering: all JSX. The six action objects are always rendered, whatever the
  current room, so no action is tied to the room. `Room.actions` is catalogue
  data only.
- `Engine.DreamStoryGame.ConfirmAction` and
  `Engine.DreamStoryGame.OutsideActionOK` do not require their dialog to be
  open. The handlers do not check it either, and the model applies the stored
  action or points as the code would.
- `src/components/Pages/Home.tsx`: it is page layout only, and its hooks and
  data are not part of this model.
- `Rules.EffectsFor`: gives every string that is not an action key the zero
  effect. The source reads `effects[action]` from an object literal (line 555),
  so a name inherited from `Object.prototype` (`toString`, `constructor`,
  `valueOf`, `__proto__`) would return that member rather than the fallback, and
  `confirmAction` would then fail on its missing `effects` (line 432). The key
  type (line 521) makes those names unreachable, and the model does not include
  JavaScript's prototype lookup.
