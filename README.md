# Round engine of the picture-matching quiz

This is a Dafny model of `GameManager`, the round engine of a Unity quiz. A game
runs for `totalRounds` rounds. Each round shows nine distinct sprites on nine
option buttons and one of them, the target, at the top of the screen. The player
picks the option that matches the target before a countdown of `timePerRound`
seconds runs out. A correct pick scores one point. The game is won with at least
`winAtLeast` points. The best score of the session is kept as a record.

The model has two layers:

- `Rules` (rules.dfy) states the game on values. `Snapshot` is the whole state of
  a `GameManager` at one instant. There is a step function for each modelled method
  of the source except `BuildUniquePool`, whose result is `Pool.Dedup`, plus
  steps for parts of those methods
  (`ResetGame`, `UnlockRound`, `DealRound`, `LockRound`, `AddPoint`,
  `CloseGame`, `ShowFinal`, `SaveHighscore`, `ClearRecord`). For example,
  `Rules.OnPick(c, s, index, d)` is the state after `OnPick(index)` runs from
  state `s` under configuration `c`. `Valid` is the state between two
  calls from outside.
- `Game.GameManager` (game.dfy) is the class itself. It has the source's fields,
  and its methods update them step by step. Each method that has a step of the
  same name in `Rules` is proved to leave `Snap()` (its fields read as a
  `Snapshot`) equal to that step applied to the old snapshot. The smaller
  helpers (`BuildUniquePool`, `ResetFlags`, `ResetCounters`,
  `ResetClockAndTarget`, `ClearFinal`, `CountRound`, `TickClock`, `FillRound`
  and `FillButtonIDs`) state their new snapshot as the old one with the fields
  they write replaced. The entry points that the UI and the frame loop call
  (`Start`, `Update`, `Click`, `TryAgain`, `PauseGame`, `ResumeGame`) and the
  completion of the scheduled banner clear (`HideResultElapsed`) also promise
  that `Valid()` is kept.

The other modules are:

- `Properties` (properties.dfy) proves what the steps promise. Examples: a pick
  scores exactly when the picked slot holds the target; a round ends exactly
  once; the score stays within the number of rounds; the end of the game decides
  the outcome and the best score.
- `Pool` (pool.dfy) covers the duplicate-free sprite pool.
- `Sampler` (sampler.dfy) covers the in-place Fisher–Yates shuffle and the nine
  options drawn from it.
- `Sprites` (sprites.dfy) covers sprites and their `name#instanceId` ids, with
  the proof that equal ids mean equal sprites.

Randomness, frame time and the persisted record are inputs or fields:

- The values `Random.Range` returns while a round is set up are passed in as
  `RoundDraws`:
  - `swaps[i]` is the draw at shuffle position `i`, in `0..i`.
  - `target` is the target slot, in `0..8`.
- `Time.deltaTime` is the `frameSeconds` argument of `Update`. `Time.timeScale`
  is 0 exactly while the game is paused, so a paused frame takes no time off the
  clock.
- The `HIGHSCORE` key of `PlayerPrefs` is the field `stored: Option<int>`.
  `Start` deletes the key, so every session begins with no record.

## Model

| member | source | states |
|---|---|---|
| Sprites.SpriteIdInjective | Assets/GameManager.cs:304 | two sprites get the same id `name#instanceId` exactly when they are the same sprite, so comparing ids compares sprites |
| Sprites.IntToStringInjective | Assets/GameManager.cs:304 | the decimal text of the instance id determines the id |
| Sprites.IntToStringHasNoHash | Assets/GameManager.cs:304 | the decimal text of an instance id contains no `#`, so the last `#` of an id separates name and instance id |
| Sprites.SplitAtHash | Assets/GameManager.cs:304 | `x#p == y#q` with no `#` in `p` and `q` forces `x == y` and `p == q` |
| Pool.DedupMembers | Assets/GameManager.cs:200-210 | a sprite is in the pool exactly when it occurs, non-null, in the configured sprites |
| Pool.DedupDistinct | Assets/GameManager.cs:200-210 | the pool holds no sprite twice |
| Pool.DedupFirstSeenOrder | Assets/GameManager.cs:200-210 | the pool keeps the order in which sprites are first seen in the configured list |
| Pool.DedupSize | Assets/GameManager.cs:100-106 | the pool size is the number of distinct non-null configured sprites, so the check for fewer than nine counts distinct sprites |
| Sampler.IndexList | Assets/GameManager.cs:284-285 | the fresh index list holds 0, 1, ..., n-1 in order |
| Sampler.Shuffle | Assets/GameManager.cs:287-291 | the array ends up as the Fisher–Yates steps from the last position down to 1 applied to its old contents |
| Sampler.ShuffledIndices | Assets/GameManager.cs:284-291 | the list built and shuffled in place is the shuffle of 0..n-1 under the given draws |
| Sampler.SwapPermutes | Assets/GameManager.cs:290 | swapping two entries keeps the multiset of entries |
| Sampler.FisherYatesPermutes | Assets/GameManager.cs:287-291 | the shuffle is a permutation of its input |
| Sampler.ShuffledIsPermutation | Assets/GameManager.cs:284-291 | the shuffled list is a permutation of 0..n-1: n distinct indices, all in range |
| Sampler.RoundSample | Assets/GameManager.cs:293-294 | the round takes nine sprites, each a member of the pool |
| Sampler.RoundSampleDistinct | Assets/GameManager.cs:293-294 | from a duplicate-free pool, the nine sprites of a round are pairwise distinct |
| Game.GameManager.constructor | Assets/GameManager.cs:26-67 | the inspector's configuration and the field initial values: score 0, no round played, not ended, not paused, empty pool |
| Game.GameManager.Start | Assets/GameManager.cs:85-151 | the new state is `Rules.Start` of the old: pool built, object disabled with fewer than nine distinct sprites, otherwise the record deleted and a game started; a started game is `Valid` and input is blocked while paused |
| Game.GameManager.BuildUniquePool | Assets/GameManager.cs:200-210 | the loop with a seen-set leaves `uniquePool == Dedup(sprites)` and nothing else changed |
| Game.GameManager.ClearRecord | Assets/GameManager.cs:144-148 | the stored record is deleted and the best score read back is 0 |
| Game.GameManager.RestartGame | Assets/GameManager.cs:212-237 | the new state is `Rules.RestartGame` of the old: counters, flags, clock and banners reset, buttons enabled, then the first round started |
| Game.GameManager.ResetGame | Assets/GameManager.cs:214-227 | the new state is `Rules.ResetGame` of the old |
| Game.GameManager.ResetFlags | Assets/GameManager.cs:214-215 | not ended, not locked; nothing else changed |
| Game.GameManager.ResetCounters | Assets/GameManager.cs:216-217 | score and rounds played are zero; nothing else changed |
| Game.GameManager.ResetClockAndTarget | Assets/GameManager.cs:218-219 | the clock is at `timePerRound` and there is no target; nothing else changed |
| Game.GameManager.ClearFinal | Assets/GameManager.cs:221-227 | the final banner is empty, and the best score and the try-again button are hidden |
| Game.GameManager.StartRound | Assets/GameManager.cs:239-277 | the new state is `Rules.StartRound` of the old: nothing once ended; otherwise unlock and reset the clock, then end the game when all rounds were played or count and deal the next round |
| Game.GameManager.UnlockRound | Assets/GameManager.cs:243-246 | the round is unlocked, the buttons are enabled and the clock is full |
| Game.GameManager.CountRound | Assets/GameManager.cs:255 | rounds played rises by one; nothing else changed |
| Game.GameManager.DealRound | Assets/GameManager.cs:258-276 | the new state is `Rules.DealRound` of the old: options, ids, target and top image from the draws |
| Game.GameManager.SetupRound | Assets/GameManager.cs:279-306 | the round's sprites are `RoundSample` of the pool under the draws and the slot ids are their ids |
| Game.GameManager.FillRound | Assets/GameManager.cs:293-294 | the round holds the pool sprites at the first nine shuffled indices |
| Game.GameManager.FillButtonIDs | Assets/GameManager.cs:297-305 | slot i holds the id of the round's i-th sprite |
| Game.GameManager.PickTarget | Assets/GameManager.cs:308-312 | the target id is the id in the drawn slot |
| Game.GameManager.ShowTopImage | Assets/GameManager.cs:262-276 | the top image shows the sprite of the target's slot; the internal-error branch is proved unreachable |
| Game.GameManager.FindCorrectIndex | Assets/GameManager.cs:262-266 | returns the first slot holding the target id, or -1 exactly when no slot holds it |
| Game.GameManager.OnPick | Assets/GameManager.cs:314-344 | the new state is `Rules.OnPick` of the old: ignored when ended, locked or out of range; otherwise lock, score a correct pick, show the result and move on |
| Game.GameManager.AddPoint | Assets/GameManager.cs:326 | the score rises by one; nothing else changed |
| Game.GameManager.NextRound | Assets/GameManager.cs:347-358 | the new state is `Rules.NextRound` of the old: end the game after the last round, otherwise start the next one |
| Game.GameManager.EndGame | Assets/GameManager.cs:360-406 | the new state is `Rules.EndGame` of the old |
| Game.GameManager.CloseGame | Assets/GameManager.cs:362-364 | ended, locked, buttons disabled |
| Game.GameManager.ShowFinal | Assets/GameManager.cs:366-383 | the final banner holds the outcome (won exactly when score ≥ winAtLeast), the score and the number of rounds; try-again is shown |
| Game.GameManager.SaveHighscore | Assets/GameManager.cs:386-405 | whether a record existed is read before the save; a higher score replaces the best score and is stored; the best score is shown exactly when a record existed before |
| Game.GameManager.Update | Assets/GameManager.cs:182-198 | the new state is `Rules.Update` of the old; from a `Valid` state with a non-negative frame the state stays `Valid` |
| Game.GameManager.TickClock | Assets/GameManager.cs:186-187 | the clock loses the frame's seconds (none while paused), clamped at zero |
| Game.GameManager.PauseGame | Assets/GameManager.cs:159-169 | the new state is `Rules.PauseGame` of the old and stays `Valid` |
| Game.GameManager.ResumeGame | Assets/GameManager.cs:170-180 | the new state is `Rules.ResumeGame` of the old and stays `Valid` |
| Game.GameManager.Click | Assets/GameManager.cs:109-114 | a button delivers `OnPick(index)` only while interactable; the state stays `Valid` |
| Game.GameManager.TryAgain | Assets/GameManager.cs:117-122 | the try-again button delivers `RestartGame` only while shown; the state stays `Valid` |
| Game.GameManager.SetButtonsInteractable | Assets/GameManager.cs:415-419 | all nine buttons are switched together |
| Game.GameManager.LockRound | Assets/GameManager.cs:319-320 | the round is locked, the buttons are disabled and the round counts as resolved |
| Game.GameManager.ShowResult | Assets/GameManager.cs:421-429 | the banner shows the message, and an automatic clear is scheduled exactly when the message is not empty, replacing any earlier one |
| Game.GameManager.HideResultElapsed | Assets/GameManager.cs:431-435 | when the scheduled clear fires, the banner is emptied; the state stays `Valid` |
| Properties.StartRoundAdvances | Assets/GameManager.cs:239-277 | once every dealt round is resolved, StartRound ends the game when all rounds were played, otherwise deals round roundsPlayed+1 from the draws; score, pool, pause and banner are unchanged and the state is `Valid` |
| Properties.NextRoundAdvances | Assets/GameManager.cs:347-358 | NextRound moves on to the next round or the end, as StartRound does |
| Properties.EndGameOutcome | Assets/GameManager.cs:360-406 | won exactly when score ≥ winAtLeast; best = max(old best, score); the record changes exactly when the score beats the old best; the best is shown exactly when a record existed before |
| Properties.OnPickIgnored | Assets/GameManager.cs:316-317 | a pick after the end, in a locked round or outside slots 0..8 changes nothing |
| Properties.OnPickResolves | Assets/GameManager.cs:314-344 | a pick in an open round resolves exactly that round; the score rises by 1 exactly when the slot holds the target id; the banner says which; the game advances; the state stays `Valid` |
| Properties.OnPickKeepsValid | Assets/GameManager.cs:314-344 | OnPick keeps the state `Valid` for any slot |
| Properties.PickMatchesTarget | Assets/GameManager.cs:322 | the id comparison says correct exactly when the picked slot shows the target sprite |
| Properties.RoundIsFair | Assets/GameManager.cs:258-276 | a dealt round shows nine pairwise-distinct pool sprites under nine distinct ids, and the target id is among them |
| Properties.UpdateIgnored | Assets/GameManager.cs:184 | a frame changes nothing after the end or while the round is locked |
| Properties.UpdatePaused | Assets/GameManager.cs:182-187 | while paused (time scale 0), a frame changes nothing when rounds have a positive time limit |
| Properties.UpdateCountsDown | Assets/GameManager.cs:186-189 | a frame that leaves time only lowers the clock, clamped at 0, and keeps `Valid` |
| Properties.UpdateExpires | Assets/GameManager.cs:191-197 | a frame that empties the clock resolves the round once as a miss with TIME UP! and advances |
| Properties.UpdateKeepsValid | Assets/GameManager.cs:182-198 | Update keeps `Valid`, and, when `timePerRound > 0`, keeps input blocked while paused |
| Properties.RestartStartsFresh | Assets/GameManager.cs:212-237 | a restart gives score 0, no resolved round, an empty banner and round 1 dealt (or, with no rounds configured, the end), keeping the record |
| Properties.StartOutcome | Assets/GameManager.cs:85-151 | the pool is `Dedup` of the sprites; the game runs exactly when there are at least nine distinct sprites, then from a `Valid` state with no record and score 0; otherwise only the pool and `enabled` change |
| Properties.PauseKeepsValid | Assets/GameManager.cs:159-169 | pausing is ignored after the end or when already paused; otherwise it pauses and disables the buttons; `Valid` is kept |
| Properties.ResumeKeepsValid | Assets/GameManager.cs:170-180 | resuming unpauses and enables the buttons; it is ignored when not paused |
| Properties.PauseResumeRoundTrip | Assets/GameManager.cs:159-180 | pausing then resuming a running game restores exactly the earlier state, the remaining time included |
| Properties.ClickKeepsValid | Assets/GameManager.cs:109-114 | any click keeps `Valid`; from a state where a pause disables the buttons (`PauseBlocksInput`), a click while paused is lost and that state of the buttons is kept |
| Properties.TryAgainRestarts | Assets/GameManager.cs:117-122 | try again does nothing during a game, and after the end it is RestartGame with score 0 |
| Properties.HideKeepsValid | Assets/GameManager.cs:431-435 | the scheduled clear empties the banner, keeps `Valid` and keeps input blocked while paused |
| Properties.ScoreBounds | Assets/GameManager.cs:57-58 | between calls 0 ≤ score ≤ roundsPlayed ≤ max(totalRounds, 0), and roundsPlayed == max(totalRounds, 0) once ended (a negative `totalRounds` ends the game at once with no round played) |

## Left out

- User interface: image colours, the timer, score and highscore texts, and `UpdateUI` and `UpdateHighscoreUI`, which only format text. The final banner is modelled as a `Verdict` value, not as formatted text.
- `Awake` and `GetBestImageForButton`: they only locate button images. The sprites shown on buttons are the round's sprites.
- The inspector null checks in `Start` for the UI objects and the button count: the model takes nine buttons as given. A null `sprites` array is the empty list.
- Listener wiring for the pause, resume and option buttons: the option buttons are `Click`, the try-again button is `TryAgain`, and pause and resume are called directly. The pause panel is not modelled.
- Sound effects.
- How random `Random.Range` is. Its results are inputs; only their ranges are stated.
- `float` arithmetic. Times are reals.
- The `ShowResult` colours.
- The coroutine itself: `hidePending` records that a clear is scheduled, and `HideResultElapsed` is its completion. `resultHideSeconds` is not modelled. The coroutine waits in scaled time, so the source never completes it during a pause (time scale 0). The model lets `HideResultElapsed` happen at any moment, paused or not, so it allows more interleavings than the source does.
- Unity object identity and destruction: a sprite is the value `(name, instanceId)`, and `HashSet` membership is equality of those values.
- The frame driver calls `Update` only on an enabled object, and the button listeners exist only after a successful `Start`. So the class methods require a pool of at least nine sprites, and draws that fit it.
- Game.GameManager.OnPick: like the source, it does not check `isPaused`. Input during a pause is blocked only because the buttons are disabled. That is proved for `Click` from a state where a pause disables the buttons (`PauseBlocksInput`), and that state is kept by every entry point when `timePerRound > 0`.
- Properties.UpdatePaused: it holds only when `timePerRound > 0`. With a zero or negative time limit, each round starts with the clock at or below zero. A paused frame then still resolves the round.
- Properties.UpdateKeepsValid: it keeps input blocked during a pause only when `timePerRound > 0`. Otherwise a paused frame resolves the round, and the next round's `StartRound` enables the buttons while the game stays paused, as the source does at GameManager.cs line 244.
- Properties.ClickKeepsValid: a click while paused is lost only when the buttons are disabled (`PauseBlocksInput`). After the paused expiry described above, the buttons are enabled during a pause, and a click there resolves a round.
- The record survives only within a session: `Start` deletes it, as the source does, and saves across sessions are not modelled.
