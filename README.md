# Lane runner: simulation core and leaderboard

A Dafny model of the two parts of the lane-runner game that hold its logic:

- **GameManager** (`logic/GameManager.kt`) is the tick-driven simulation. A car drives in one of
  `lanes` lanes. Obstacles and coins fall toward it as `(lane, progress)` pairs: progress 0 is
  the top of the play field, and 1.0 is past its bottom. Each tick moves everything down by a
  step that depends on the mode. Entries that leave the field are dropped. A new obstacle or
  coin may appear at the top of a lane that has nothing near the top (progress < 0.15). The
  odometer grows by the step times 100, truncated. The manager also collects coins, detects and handles
  collisions in the car's band [0.8, 0.88), and steers the car. It is modelled as the class
  `Logic.GameManager`. Its fields are the `GameState` record, the obstacle list and the sensor
  multiplier. Every method updates those fields in place.
- **HighScoresRepository** (`data/HighScoresRepository.kt`) is the persisted leaderboard. A
  submission appends the entry, stable-sorts by score from highest to lowest, and keeps the
  first ten. Clearing removes the stored key. A missing key or an undecodable value reads as
  the empty list. The ranking pipeline is a pure function, `HighScoresData.Rank`. The store is
  the class `HighScoresData.HighScoresRepository`. It holds the optional stored value, and
  each `edit` block is one method.
- `GameState` and `HighScore` (`model/`) are immutable records. They become datatypes, so
  Kotlin's `copy(f = v)` becomes Dafny's `r.(f := v)`, which changes only the named fields.

Files:

- `track.dfy` (module `Track`): the list operations GameManager applies to falling entities,
  and their facts. These are `map`, `filter`/`removeAll`, the near-top rule and the band.
- `game_state.dfy`: the `GameState` record and its defaults.
- `game_manager.dfy` (module `Logic`): the class and its specification functions.
- `high_score.dfy`: the `HighScore` record.
- `high_scores_repository.dfy` (module `HighScoresData`): the ranking and the store.

The class keeps an invariant, `Valid()`, that every method preserves:

- the car is in a lane;
- lives stay in [0, 3];
- the game is over exactly when no life is left, and a game that is over is not running;
- the counters are non-negative;
- at most 4 obstacles are on the field;
- every obstacle and coin is in a lane with progress in [0, 1);
- no lane holds two obstacles, or two coins, near the top.

The random draws of the source are parameters of the methods:

- `spawnRoll` and `coinRoll` stand for `nextFloat() < 0.08f` and `nextFloat() < 0.02f`;
- `laneChoice` indexes the list of available lanes, modulo its length;
- `coinLane` picks a lane, modulo `lanes`.

The sort is modelled as an insertion sort. It is also characterised independently: a list is
the sort's result exactly when it is sorted and keeps, for every score, the entries with that
score in their original order. Only one list has both properties (`SortCharacterization`).

Details of the code the model follows:

- `handleCollision` ends the game when `lives <= 0` after the decrement. Under the caller's
  `lives > 0` guard this is exactly when the last life is lost.
- Collection removes coins with `coins - collected.toSet()`. This removes every coin equal to
  a collected one, which here is exactly the coins in the band, so the model uses a filter.

## Model

| member | source | states |
|---|---|---|
| Track.Filter | app2Almog/app2Almog/app/src/main/java/com/example/myapplication/logic/GameManager.kt:61 | the kept list is no longer than the input, holds exactly the input's elements that pass the test, and is a sub-multiset of the input |
| Track.Shift | app2Almog/app2Almog/app/src/main/java/com/example/myapplication/logic/GameManager.kt:34 | same length; each entity keeps its lane and its progress grows by exactly `speed` |
| Track.ShiftMembers | app2Almog/app2Almog/app/src/main/java/com/example/myapplication/logic/GameManager.kt:34 | an entity is in the shifted list exactly when the list before held it one step higher, in the same lane |
| Track.Moved | app2Almog/app2Almog/app/src/main/java/com/example/myapplication/logic/GameManager.kt:34-36 | after a tick, an entity is on the field exactly when its progress is below 1.0 and it was on the field one step higher before the tick; no entity is added |
| Track.LaneRange | app2Almog/app2Almog/app/src/main/java/com/example/myapplication/logic/GameManager.kt:39 | `0 until n` holds exactly the lanes 0 to n - 1, each at its own index |
| Track.AvailableLanes | app2Almog/app2Almog/app/src/main/java/com/example/myapplication/logic/GameManager.kt:39-41 | a lane is listed exactly when it is in `[0, lanes)` and has no entity with progress < 0.15 |
| Track.LaneFreeIffNoneNearTop | app2Almog/app2Almog/app/src/main/java/com/example/myapplication/logic/GameManager.kt:40 | the `none` test of a lane holds exactly when that lane has zero entities near the top |
| Track.ShiftNearTop | app2Almog/app2Almog/app/src/main/java/com/example/myapplication/logic/GameManager.kt:34 | moving down by a non-negative step never adds an entity near the top of a lane |
| Track.FilterNearTop | app2Almog/app2Almog/app/src/main/java/com/example/myapplication/logic/GameManager.kt:36 | removing entities never adds one near the top of a lane |
| Track.MovedOnTrack | app2Almog/app2Almog/app/src/main/java/com/example/myapplication/logic/GameManager.kt:34-36 | a tick with a non-negative step keeps every entity in a lane with progress in [0, 1), and keeps at most one entity per lane near the top |
| Track.FilterOnTrack | app2Almog/app2Almog/app/src/main/java/com/example/myapplication/logic/GameManager.kt:104-106 | removing entities keeps that invariant |
| Track.SpawnOnTrack | app2Almog/app2Almog/app/src/main/java/com/example/myapplication/logic/GameManager.kt:68-69 | adding an entity at progress 0 to a lane with nothing near the top keeps that invariant |
| Track.FilterPartition | app2Almog/app2Almog/app/src/main/java/com/example/myapplication/logic/GameManager.kt:76-82 | the collected coins and the remaining coins together are exactly the coins before, as a multiset and by count |
| Track.FilterKeepsAll | app2Almog/app2Almog/app/src/main/java/com/example/myapplication/logic/GameManager.kt:79 | when no element is removed, filtering returns the list unchanged |
| Track.Collides | app2Almog/app2Almog/app/src/main/java/com/example/myapplication/logic/GameManager.kt:90-92 | the collision query holds exactly when the lane's band holds at least one entity, that is, when the band's entities of the lane form a non-empty list |
| Track.CollidesIffRemoves | app2Almog/app2Almog/app/src/main/java/com/example/myapplication/logic/GameManager.kt:87-106 | the collision query holds exactly when removing the band's obstacles removes something; when it does not hold, removal is the identity |
| Logic.ModeOf | app2Almog/app2Almog/app/src/main/java/com/example/myapplication/logic/GameManager.kt:28-32 | the tag "button_fast" selects the fast setting and "sensor" the sensor setting, each exactly; every other tag selects the base step |
| Logic.SpeedFor | app2Almog/app2Almog/app/src/main/java/com/example/myapplication/logic/GameManager.kt:28-32 | the fast setting moves 0.015 × 1.7 per tick, the sensor setting 0.015 × 0.8 × multiplier, every other tag 0.015; outside sensor mode the step lies between 0.015 and 0.015 × 1.7, and it is non-negative for a non-negative multiplier |
| Logic.TruncateToInt | app2Almog/app2Almog/app/src/main/java/com/example/myapplication/logic/GameManager.kt:49 | `toInt` rounds toward zero: the floor for non-negative values, the ceiling for negative ones |
| Logic.SpawnObstacle | app2Almog/app2Almog/app/src/main/java/com/example/myapplication/logic/GameManager.kt:38-45 | the list is unchanged, or gains exactly one obstacle at progress 0 in a lane with nothing near the top; it changes exactly when the roll succeeds, the list has fewer than 4 obstacles, and such a lane exists |
| Logic.SpawnObstacleOnTrack | app2Almog/app2Almog/app/src/main/java/com/example/myapplication/logic/GameManager.kt:10 | a spawn keeps the obstacles on track and at most 4 |
| Logic.SpawnCoin | app2Almog/app2Almog/app/src/main/java/com/example/myapplication/logic/GameManager.kt:65-71 | exactly one coin `(lane, 0)` is appended exactly when the drawn lane has no coin near the top; otherwise the coins are unchanged |
| Logic.MovedCoins | app2Almog/app2Almog/app/src/main/java/com/example/myapplication/logic/GameManager.kt:51-55 | the coins after a tick are the moved coins, possibly followed by one new coin at progress 0 in the drawn lane |
| Logic.DefaultStateValid | app2Almog/app2Almog/app/src/main/java/com/example/myapplication/model/GameState.kt:3-12 | the record's defaults satisfy the snapshot invariant on a road of at least 3 lanes (their lane 2 must exist), and on any road once the car is moved to lane `lanes / 2`; they start a run with 3 lives, running |
| Logic.CollectExample | app2Almog/app2Almog/app/src/main/java/com/example/myapplication/logic/GameManager.kt:73-85 | with coins at (lane, 0.81), (lane, 0.5) and (other, 0.82), only the first is removed and the other two keep their order |
| Logic.CollectCountExample | app2Almog/app2Almog/app/src/main/java/com/example/myapplication/logic/GameManager.kt:76-78 | in the same situation, exactly the first coin is collected |
| Logic.GameManager.constructor | app2Almog/app2Almog/app/src/main/java/com/example/myapplication/logic/GameManager.kt:7-13 | the default state (3 lives, running, not over, no crash notice, odometer 0, no coins, 0 collected) with the car in lane `lanes / 2`, no obstacles, multiplier 1.5, the mode tag dispatched once (it is a `val`), and the invariant established |
| Logic.GameManager.SetSensorSpeed | app2Almog/app2Almog/app/src/main/java/com/example/myapplication/logic/GameManager.kt:15-17 | only the multiplier changes |
| Logic.GameManager.UpdateGameState | app2Almog/app2Almog/app/src/main/java/com/example/myapplication/logic/GameManager.kt:19-21 | the snapshot is replaced wholesale; obstacles and multiplier are unchanged |
| Logic.GameManager.ClearCrashToast | app2Almog/app2Almog/app/src/main/java/com/example/myapplication/ui/GameScreen.kt:207 | only `crashToast` changes, to false |
| Logic.GameManager.StopRunning | app2Almog/app2Almog/app/src/main/java/com/example/myapplication/ui/GameScreen.kt:120 | only `isGameRunning` changes, to false |
| Logic.GameManager.MoveObstacle | app2Almog/app2Almog/app/src/main/java/com/example/myapplication/logic/GameManager.kt:27-56 | the obstacles are the moved list plus at most one spawn; the odometer grows by exactly the truncated `speed × 100` and never falls; the coins are moved, plus at most one spawn when the coin roll succeeds; no other field changes; the invariant holds |
| Logic.GameManager.MoveObstacles | app2Almog/app2Almog/app/src/main/java/com/example/myapplication/logic/GameManager.kt:33-46 | the obstacles become the moved list plus at most one spawn, and stay on track and at most 4; nothing else changes |
| Logic.GameManager.MoveCoins | app2Almog/app2Almog/app/src/main/java/com/example/myapplication/logic/GameManager.kt:58-63 | only the coins change, to the moved list |
| Logic.GameManager.SpawnCoinAtRandom | app2Almog/app2Almog/app/src/main/java/com/example/myapplication/logic/GameManager.kt:65-71 | only the coins change, as `SpawnCoin` says |
| Logic.GameManager.CollectCoin | app2Almog/app2Almog/app/src/main/java/com/example/myapplication/logic/GameManager.kt:73-85 | the coins in the car's lane and band are removed; `collectedCoins` grows by their number; nothing else changes |
| Logic.GameManager.CheckCollision | app2Almog/app2Almog/app/src/main/java/com/example/myapplication/logic/GameManager.kt:87-93 | true exactly when an obstacle is in the car's lane and band, which is also exactly when handling would remove one; changes nothing |
| Logic.GameManager.HandleCollision | app2Almog/app2Almog/app/src/main/java/com/example/myapplication/logic/GameManager.kt:95-114 | no collision: no change at all. A collision, all in one call: one life fewer, the crash notice set, exactly the band's obstacles in the car's lane removed, and at 0 lives game over and not running |
| Logic.GameManager.MoveCarLeft | app2Almog/app2Almog/app/src/main/java/com/example/myapplication/logic/GameManager.kt:116-120 | the car moves one lane left, or stays in lane 0; only `carLane` changes |
| Logic.GameManager.MoveCarRight | app2Almog/app2Almog/app/src/main/java/com/example/myapplication/logic/GameManager.kt:122-126 | the car moves one lane right, or stays in the last lane; only `carLane` changes |
| Logic.GameManager.Tick | app2Almog/app2Almog/app/src/main/java/com/example/myapplication/ui/GameScreen.kt:133-140 | with no life left nothing changes. Otherwise, with `moved` the obstacles after the move and spawn and `coins` the coins after the move and spawn: the band of the car's lane is cleared of coins, and `collectedCoins` grows by their number; when `moved` has an obstacle in that band, those obstacles are removed, one life is lost (and a life is lost only then), the crash notice is set, and at 0 lives the game is over and stops; the odometer grows by the truncated step × 100; the car stays in its lane; the invariant holds |
| HighScoresData.InsertByScore | app2Almog/app2Almog/app/src/main/java/com/example/myapplication/data/HighScoresRepository.kt:23 | one step of the sort: the result is the list plus the new entry, as a multiset |
| HighScoresData.SortByScoreDescending | app2Almog/app2Almog/app/src/main/java/com/example/myapplication/data/HighScoresRepository.kt:23 | the sort is a permutation of its input |
| HighScoresData.InsertSorted | app2Almog/app2Almog/app/src/main/java/com/example/myapplication/data/HighScoresRepository.kt:23 | inserting into a sorted list keeps it sorted |
| HighScoresData.InsertScoreClass | app2Almog/app2Almog/app/src/main/java/com/example/myapplication/data/HighScoresRepository.kt:23 | inserting puts the entry last among those with its score, and leaves the order of every score's entries alone |
| HighScoresData.SortIsSorted | app2Almog/app2Almog/app/src/main/java/com/example/myapplication/data/HighScoresRepository.kt:23 | the sort's result is ordered by score, highest first |
| HighScoresData.SortIsStable | app2Almog/app2Almog/app/src/main/java/com/example/myapplication/data/HighScoresRepository.kt:23 | for every score, the sort keeps the entries with that score in their input order |
| HighScoresData.ScoreClassMembers | app2Almog/app2Almog/app/src/main/java/com/example/myapplication/data/HighScoresRepository.kt:23 | an entry is among a score's entries exactly when it is in the list with that score |
| HighScoresData.SortedUnique | app2Almog/app2Almog/app/src/main/java/com/example/myapplication/data/HighScoresRepository.kt:23 | two sorted lists that agree on every score's entries, in order, are equal |
| HighScoresData.SortCharacterization | app2Almog/app2Almog/app/src/main/java/com/example/myapplication/data/HighScoresRepository.kt:23 | a list is the sort's result exactly when it is sorted and stable with respect to the input |
| HighScoresData.SortOfSorted | app2Almog/app2Almog/app/src/main/java/com/example/myapplication/data/HighScoresRepository.kt:23 | sorting an already sorted list changes nothing |
| HighScoresData.InsertPosition | app2Almog/app2Almog/app/src/main/java/com/example/myapplication/data/HighScoresRepository.kt:23 | the new entry lands after every entry scoring at least as much and before every entry scoring less |
| HighScoresData.Rank | app2Almog/app2Almog/app/src/main/java/com/example/myapplication/data/HighScoresRepository.kt:22-24 | the kept list is sorted, has min(old length + 1, 10) entries, and is a sub-multiset of the old list plus the new entry |
| HighScoresData.RankKeepsTheBest | app2Almog/app2Almog/app/src/main/java/com/example/myapplication/data/HighScoresRepository.kt:23-24 | every kept entry scores at least as much as every dropped one |
| HighScoresData.RankIsStable | app2Almog/app2Almog/app/src/main/java/com/example/myapplication/data/HighScoresRepository.kt:22-23 | for every score, the kept entries with it are a prefix of the stored ones with it, followed by the new entry, so earlier entries come first among equals |
| HighScoresData.RankFullBoardUnchanged | app2Almog/app2Almog/app/src/main/java/com/example/myapplication/data/HighScoresRepository.kt:22-24 | a full sorted board whose tenth score is at least the new one is unchanged |
| HighScoresData.RankPlacesEntry | app2Almog/app2Almog/app/src/main/java/com/example/myapplication/data/HighScoresRepository.kt:22-24 | on a sorted board with room, every entry is kept and the new one goes after all that score at least as much and before the rest |
| HighScoresData.FirstSubmission | app2Almog/app2Almog/app/src/main/java/com/example/myapplication/data/HighScoresRepository.kt:22-24 | submitting to an empty board gives the one-entry board |
| HighScoresData.SecondSubmission | app2Almog/app2Almog/app/src/main/java/com/example/myapplication/data/HighScoresRepository.kt:22-24 | a higher score goes in front of the only entry |
| HighScoresData.ThirdSubmission | app2Almog/app2Almog/app/src/main/java/com/example/myapplication/data/HighScoresRepository.kt:22-24 | a lowest score goes last |
| HighScoresData.TiedSubmissionExample | app2Almog/app2Almog/app/src/main/java/com/example/myapplication/data/HighScoresRepository.kt:22-23 | on the board 80, 50, 30, a new 80 goes after the stored 80 and before 50 |
| HighScoresData.SubmissionOrderExample | app2Almog/app2Almog/app/src/main/java/com/example/myapplication/data/HighScoresRepository.kt:22-24 | submitting 50, 80, 30, 80 to an empty board gives 80 (the earlier), 80 (the later), 50, 30 |
| HighScoresData.ReadScores | app2Almog/app2Almog/app/src/main/java/com/example/myapplication/data/HighScoresRepository.kt:42-48 | no key or an undecodable value reads as the empty list; a decodable value reads as the list it encodes |
| HighScoresData.HighScoresRepository.GetHighScores | app2Almog/app2Almog/app/src/main/java/com/example/myapplication/data/HighScoresRepository.kt:42-48 | no key or an undecodable value reads as the empty list; otherwise the decoded list |
| HighScoresData.HighScoresRepository.AddHighScore | app2Almog/app2Almog/app/src/main/java/com/example/myapplication/data/HighScoresRepository.kt:19-28 | the stored list becomes the ranking of the list read before plus the entry, which is sorted, at most 10 long, and a sub-multiset of what was there plus the entry |
| HighScoresData.HighScoresRepository.ClearHighScores | app2Almog/app2Almog/app/src/main/java/com/example/myapplication/data/HighScoresRepository.kt:30-34 | the key is removed, and the list then reads as empty |

## Left out

- The Compose UI, the coroutine game loop with its delays, vibration, sound, toasts,
  navigation, the map and location screens, and the accelerometer-to-multiplier mapping. Only
  the loop's order of calls is kept, as `Tick`.
- The random generator. Its draws are the parameters `spawnRoll`, `laneChoice`, `coinRoll` and
  `coinLane`. The model states what holds for every draw, not the probabilities 8% and 2%, and
  not that the lane choice is uniform.
- IEEE `Float` arithmetic. Progress, step and multiplier are exact reals, so rounding in
  `row + speed` and in `0.8f + 0.08f` is not modelled.
- Logic.GameManager.MoveObstacle: the odometer is an unbounded integer, so a 32-bit overflow
  of `odometer` is not modelled. A tick adds at most 3 (sensor mode at the clamped maximum
  multiplier 3.0), so the overflow needs at least about 716 million ticks, and about 2.1 billion
  at the base step, which adds 1. The same holds for `collectedCoins` in CollectCoin.
- Logic.GameManager.constructor: requires `lanes >= 1`, because with no lanes
  `(0 until lanes).random()` in `spawnCoin` throws.
- Logic.GameManager.SetSensorSpeed: requires a non-negative multiplier. The only caller clamps
  it to [0.5, 3.0] (`ui/GameScreen.kt:86`). A negative step would move entities up and break
  the invariant.
- Logic.GameManager.HandleCollision: requires `lives > 0`. The only caller guards every tick
  with that test (`ui/GameScreen.kt:133`). Without it, lives could go negative.
- Logic.GameManager.UpdateGameState: requires the new snapshot to satisfy the invariant. The
  source accepts any record; its two callers are modelled as ClearCrashToast and StopRunning.
- The getters `getGameState` and `getObstacles`. The model reads the fields directly.
- The DataStore, its `Flow` subscription and the JSON encoding. The stored value is either the
  list it decodes to (`Encoded`) or text that does not decode (`Undecodable`). Unknown JSON
  fields, the text form, and write failures (an I/O exception from `edit`) are not modelled.
  `GetHighScores` is one read of the current value rather than a stream.
- The `HighScore` default timestamp (`System.currentTimeMillis()`) is an explicit field. The
  default absent location is `None`.
