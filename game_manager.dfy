/**
 * The simulation core of the lane runner (logic/GameManager.kt): one GameManager owns
 * the run's GameState and the obstacle list and advances them once per tick.
 *
 * The source draws its random numbers from a seeded generator; here each draw is a
 * parameter: `spawnRoll` and `coinRoll` stand for `random.nextFloat() < 0.08f` and
 * `< 0.02f`, `laneChoice` picks among the available lanes and `coinLane` among all lanes.
 */
module Logic {
  import opened Track
  import opened GameStateModel

  const MaxObstacles: int := 4
  /** `sensorSpeedMultiplier`'s initial value. */
  const DefaultSensorMultiplier: real := 1.5

  /** The three speed settings that the `when (mode)` of `moveObstacle` tells apart. */
  datatype SpeedMode = ButtonFast | Sensor | ButtonSlow

  /**
   * The `when (mode)` dispatch: the tags "button_fast" and "sensor" are recognised; every
   * other tag, "button_slow" among them, falls to the `else` branch.
   */
  function ModeOf(tag: string): (m: SpeedMode)
    ensures m == ButtonFast <==> tag == "button_fast"
    ensures m == Sensor <==> tag == "sensor"
    ensures m == ButtonSlow <==> tag != "button_fast" && tag != "sensor"
  {
    match tag
    case "button_fast" => ButtonFast
    case "sensor" => Sensor
    case _ => ButtonSlow
  }

  /**
   * The step of one tick in each speed setting: `baseStep` = 0.015, 1.5% of the play field
   * per tick, scaled by 1.7 in the fast button mode and by 0.8 times the multiplier in
   * sensor mode. The constants are written out as numerals so that the solver reasons
   * about them linearly.
   */
  function SpeedFor(mode: SpeedMode, multiplier: real): (speed: real)
    ensures multiplier >= 0.0 ==> speed >= 0.0
    ensures mode != Sensor ==> 0.015 <= speed <= 0.015 * 1.7
    ensures mode == ButtonFast ==> speed == 0.015 * 1.7
    ensures mode == Sensor ==> speed == 0.015 * 0.8 * multiplier
    ensures mode == ButtonSlow ==> speed == 0.015
  {
    match mode
    case ButtonFast => 0.015 * 1.7
    case Sensor => 0.015 * 0.8 * multiplier
    case ButtonSlow => 0.015
  }

  /** Kotlin's Float.toInt(): rounds toward zero. */
  function TruncateToInt(x: real): (n: int)
    ensures 0.0 <= x ==> 0 <= n && n as real <= x < n as real + 1.0
    ensures x < 0.0 ==> n <= 0 && n as real - 1.0 < x <= n as real
  {
    if x >= 0.0 then x.Floor else -((-x).Floor)
  }

  /**
   * The obstacle spawn of one tick, applied to the list after the move: below the cap and
   * on a successful roll, one obstacle at progress 0 in a lane with nothing near the top.
   */
  function SpawnObstacle(s: seq<Falling>, lanes: nat, spawnRoll: bool, laneChoice: nat): (r: seq<Falling>)
    ensures r == s || exists l :: 0 <= l < lanes && LaneFree(s, l) && r == s + [(l, 0.0)]
    ensures r != s <==> spawnRoll && |s| < MaxObstacles && exists l :: 0 <= l < lanes && LaneFree(s, l)
  {
    if |s| < MaxObstacles && spawnRoll then
      var available := AvailableLanes(s, lanes);
      if |available| > 0 then
        assert available[laneChoice % |available|] in available;
        s + [(available[laneChoice % |available|], 0.0)]
      else
        assert forall l :: 0 <= l < lanes && LaneFree(s, l) ==> l in available;
        s
    else s
  }

  /** An obstacle spawn keeps the list on track and within the cap. */
  lemma SpawnObstacleOnTrack(s: seq<Falling>, lanes: nat, spawnRoll: bool, laneChoice: nat)
    requires OnTrack(s, lanes) && |s| <= MaxObstacles
    ensures OnTrack(SpawnObstacle(s, lanes, spawnRoll, laneChoice), lanes)
    ensures |SpawnObstacle(s, lanes, spawnRoll, laneChoice)| <= MaxObstacles
  {
    var r := SpawnObstacle(s, lanes, spawnRoll, laneChoice);
    if r != s {
      var l :| 0 <= l < lanes && LaneFree(s, l) && r == s + [(l, 0.0)];
      SpawnOnTrack(s, l, lanes);
    }
  }

  /**
   * `spawnCoin`: one coin at progress 0 in lane `coinLane mod lanes`, exactly when no coin
   * of that lane is near the top.
   */
  function SpawnCoin(coins: seq<Falling>, lanes: nat, coinLane: nat): (r: seq<Falling>)
    requires lanes >= 1
    ensures |r| == |coins| + 1 <==> LaneFree(coins, coinLane % lanes)
    ensures r == coins || r == coins + [(coinLane % lanes, 0.0)]
  {
    var lane := coinLane % lanes;
    if LaneFree(coins, lane) then coins + [(lane, 0.0)] else coins
  }

  /** The coins after the move of one tick and the coin spawn that follows it on a successful roll. */
  function MovedCoins(coins: seq<Falling>, speed: real, lanes: nat, coinRoll: bool, coinLane: nat): (r: seq<Falling>)
    requires lanes >= 1
    ensures r == Moved(coins, speed) || r == Moved(coins, speed) + [(coinLane % lanes, 0.0)]
  {
    if coinRoll then SpawnCoin(Moved(coins, speed), lanes, coinLane) else Moved(coins, speed)
  }

  /**
   * Collection with coins at (lane, 0.81), (lane, 0.5) and (other, 0.82): only the first
   * is in the car's lane and band, so it alone is removed; the other two stay in their
   * order.
   */
  lemma CollectExample(hit: Falling, miss: Falling, away: Falling, lane: int)
    requires hit == (lane, 0.81) && miss == (lane, 0.5) && away.0 != lane && away.1 == 0.82
    ensures Filter([hit, miss, away], ClearOfBand(lane)) == [miss, away]
  {
    var f := ClearOfBand(lane);
    assert !f(hit) && f(miss) && f(away);
    FilterThree(hit, miss, away, f);
    assert [] + [miss] + [away] == [miss, away];
  }

  /** In the same situation, exactly the first coin is counted. */
  lemma CollectCountExample(hit: Falling, miss: Falling, away: Falling, lane: int)
    requires hit == (lane, 0.81) && miss == (lane, 0.5) && away.0 != lane && away.1 == 0.82
    ensures Filter([hit, miss, away], BandTest(lane)) == [hit]
  {
    var g := BandTest(lane);
    assert g(hit) && !g(miss) && !g(away);
    FilterThree(hit, miss, away, g);
    assert [hit] + [] + [] == [hit];
  }

  /**
   * What every snapshot of a run satisfies: the car is on the road, lives stay in
   * [0, MaxLives], the game is over exactly when no life is left and then no longer
   * running, the counters are non-negative and the coins are on track.
   */
  ghost predicate StateValid(gs: GameState, lanes: int) {
    && 0 <= gs.carLane < lanes
    && 0 <= gs.lives <= MaxLives
    && (gs.isGameOver <==> gs.lives == 0)
    && (gs.isGameOver ==> !gs.isGameRunning)
    && gs.odometer >= 0
    && gs.collectedCoins >= 0
    && OnTrack(gs.coins, lanes)
  }

  /**
   * `GameState()`'s defaults make a valid first snapshot: for any road with the car moved
   * to the middle lane, as the manager does, and as they stand on a road of three or more
   * lanes, where lane 2 exists.
   */
  lemma DefaultStateValid(lanes: int)
    requires lanes >= 1
    ensures StateValid(DefaultGameState.(carLane := lanes / 2), lanes)
    ensures lanes >= 3 ==> StateValid(DefaultGameState, lanes)
    ensures DefaultGameState.lives == MaxLives && DefaultGameState.isGameRunning
  {
  }

  class GameManager {
    const lanes: int
    const mode: string
    /** The dispatch of `mode`, which is a `val`: the same in every tick. */
    const speedMode: SpeedMode
    var gameState: GameState
    var obstacles: seq<Falling>
    var sensorSpeedMultiplier: real

    ghost predicate Valid()
      reads this
    {
      && lanes >= 1
      && StateValid(gameState, lanes)
      && OnTrack(obstacles, lanes)
      && |obstacles| <= MaxObstacles
      && sensorSpeedMultiplier >= 0.0
    }

    constructor (lanes: int, mode: string)
      requires lanes >= 1
      ensures Valid()
      ensures this.lanes == lanes && this.mode == mode && speedMode == ModeOf(mode)
      ensures gameState == DefaultGameState.(carLane := lanes / 2)
      ensures obstacles == [] && sensorSpeedMultiplier == DefaultSensorMultiplier
    {
      this.lanes := lanes;
      this.mode := mode;
      speedMode := ModeOf(mode);
      gameState := DefaultGameState.(carLane := lanes / 2);
      obstacles := [];
      sensorSpeedMultiplier := DefaultSensorMultiplier;
    }

    method SetSensorSpeed(multiplier: real)
      requires Valid() && multiplier >= 0.0
      modifies this
      ensures Valid()
      ensures sensorSpeedMultiplier == multiplier
      ensures gameState == old(gameState) && obstacles == old(obstacles)
    {
      sensorSpeedMultiplier := multiplier;
    }

    /** `updateGameState`: replaces the snapshot wholesale with one that keeps the invariant. */
    method UpdateGameState(newState: GameState)
      requires Valid() && StateValid(newState, lanes)
      modifies this
      ensures Valid()
      ensures gameState == newState
      ensures obstacles == old(obstacles) && sensorSpeedMultiplier == old(sensorSpeedMultiplier)
    {
      gameState := newState;
    }

    /** The screen's use of `updateGameState` once it has shown the crash notice. */
    method ClearCrashToast()
      requires Valid()
      modifies this
      ensures Valid()
      ensures gameState == old(gameState).(crashToast := false)
      ensures obstacles == old(obstacles) && sensorSpeedMultiplier == old(sensorSpeedMultiplier)
    {
      UpdateGameState(gameState.(crashToast := false));
    }

    /** The screen's use of `updateGameState` when it is torn down. */
    method StopRunning()
      requires Valid()
      modifies this
      ensures Valid()
      ensures gameState == old(gameState).(isGameRunning := false)
      ensures obstacles == old(obstacles) && sensorSpeedMultiplier == old(sensorSpeedMultiplier)
    {
      UpdateGameState(gameState.(isGameRunning := false));
    }

    /**
     * `moveObstacle`: one tick. Obstacles move and leave the screen, one may spawn, the
     * odometer grows by the truncated step, coins move and leave the screen, one may spawn.
     */
    method MoveObstacle(spawnRoll: bool, laneChoice: nat, coinRoll: bool, coinLane: nat)
      requires Valid()
      modifies this
      ensures Valid()
      ensures obstacles
              == SpawnObstacle(Moved(old(obstacles), SpeedFor(speedMode, old(sensorSpeedMultiplier))), lanes, spawnRoll, laneChoice)
      ensures gameState.odometer
              == old(gameState.odometer) + TruncateToInt(SpeedFor(speedMode, old(sensorSpeedMultiplier)) * 100.0)
      ensures gameState.coins
              == MovedCoins(old(gameState.coins), SpeedFor(speedMode, old(sensorSpeedMultiplier)), lanes, coinRoll, coinLane)
      ensures gameState == old(gameState).(odometer := gameState.odometer, coins := gameState.coins)
      ensures sensorSpeedMultiplier == old(sensorSpeedMultiplier)
      ensures gameState.odometer >= old(gameState.odometer)
    {
      var speed := SpeedFor(speedMode, sensorSpeedMultiplier);
      MoveObstacles(speed, spawnRoll, laneChoice);
      gameState := gameState.(odometer := gameState.odometer + TruncateToInt(speed * 100.0));
      MoveCoins(speed);
      if coinRoll {
        SpawnCoinAtRandom(coinLane);
      }
    }

    /** The obstacle half of `moveObstacle`: the move, the drop past the field and the spawn. */
    method MoveObstacles(speed: real, spawnRoll: bool, laneChoice: nat)
      requires Valid() && speed >= 0.0
      modifies this
      ensures Valid()
      ensures obstacles == SpawnObstacle(Moved(old(obstacles), speed), lanes, spawnRoll, laneChoice)
      ensures gameState == old(gameState) && sensorSpeedMultiplier == old(sensorSpeedMultiplier)
    {
      var next := Shift(obstacles, speed);
      next := Filter(next, OnScreen);
      next := SpawnObstacle(next, lanes, spawnRoll, laneChoice);
      assert OnTrack(next, lanes) && |next| <= MaxObstacles by {
        MovedOnTrack(obstacles, speed, lanes);
        SpawnObstacleOnTrack(Moved(obstacles, speed), lanes, spawnRoll, laneChoice);
      }
      obstacles := next;
    }

    /** `moveCoins`: every coin moves by `speed`; coins reaching 1.0 are dropped. */
    method MoveCoins(speed: real)
      requires Valid() && speed >= 0.0
      modifies this
      ensures Valid()
      ensures gameState == old(gameState).(coins := Moved(old(gameState.coins), speed))
      ensures obstacles == old(obstacles) && sensorSpeedMultiplier == old(sensorSpeedMultiplier)
    {
      MovedOnTrack(gameState.coins, speed, lanes);
      gameState := gameState.(coins := Moved(gameState.coins, speed));
    }

    /** `spawnCoin`, with the lane draw `(0 until lanes).random()` given as `coinLane`. */
    method SpawnCoinAtRandom(coinLane: nat)
      requires Valid()
      modifies this
      ensures Valid()
      ensures gameState == old(gameState).(coins := SpawnCoin(old(gameState.coins), lanes, coinLane))
      ensures obstacles == old(obstacles) && sensorSpeedMultiplier == old(sensorSpeedMultiplier)
    {
      var lane := coinLane % lanes;
      if LaneFree(gameState.coins, lane) {
        SpawnOnTrack(gameState.coins, lane, lanes);
        gameState := gameState.(coins := gameState.coins + [(lane, 0.0)]);
      }
    }

    /**
     * `collectCoin`: the coins of the car's lane inside the band are removed and counted;
     * nothing changes when there are none.
     */
    method CollectCoin()
      requires Valid()
      modifies this
      ensures Valid()
      ensures gameState.coins == Filter(old(gameState.coins), ClearOfBand(old(gameState.carLane)))
      ensures gameState.collectedCoins
              == old(gameState.collectedCoins) + |Filter(old(gameState.coins), BandTest(old(gameState.carLane)))|
      ensures gameState == old(gameState).(coins := gameState.coins, collectedCoins := gameState.collectedCoins)
      ensures obstacles == old(obstacles) && sensorSpeedMultiplier == old(sensorSpeedMultiplier)
    {
      var carLane := gameState.carLane;
      var collected := Filter(gameState.coins, BandTest(carLane));
      FilterPartition(gameState.coins, BandTest(carLane), ClearOfBand(carLane));
      if |collected| > 0 {
        FilterOnTrack(gameState.coins, ClearOfBand(carLane), lanes);
        gameState := gameState.(
          coins := Filter(gameState.coins, ClearOfBand(carLane)),
          collectedCoins := gameState.collectedCoins + |collected|);
      } else {
        FilterKeepsAll(gameState.coins, ClearOfBand(carLane));
      }
    }

    /**
     * `checkCollision`: whether an obstacle of the car's lane is inside the band, which is
     * also exactly when `handleCollision` would remove one. Reads the state only.
     */
    method CheckCollision() returns (hit: bool)
      ensures hit <==> exists e :: e in obstacles && InBand(e, gameState.carLane)
      ensures hit <==> |Filter(obstacles, ClearOfBand(gameState.carLane))| < |obstacles|
    {
      CollidesIffRemoves(obstacles, gameState.carLane);
      hit := Collides(obstacles, gameState.carLane);
    }

    /**
     * `handleCollision`: on a collision, one life is lost, the crash notice is raised, the
     * obstacles of the car's lane inside the band are removed and, at no lives left, the
     * game is over and stops running, all in this one call. No collision: no change.
     * The caller only calls it while a life is left.
     */
    method HandleCollision()
      requires Valid() && gameState.lives > 0
      modifies this
      ensures Valid()
      ensures !old(Collides(obstacles, gameState.carLane))
              ==> gameState == old(gameState) && obstacles == old(obstacles)
      ensures old(Collides(obstacles, gameState.carLane)) ==>
                && obstacles == Filter(old(obstacles), ClearOfBand(old(gameState.carLane)))
                && |obstacles| < |old(obstacles)|
                && gameState == old(gameState).(
                     lives := old(gameState.lives) - 1,
                     crashToast := true,
                     isGameOver := old(gameState.lives) == 1,
                     isGameRunning := old(gameState.isGameRunning) && old(gameState.lives) != 1)
      ensures sensorSpeedMultiplier == old(sensorSpeedMultiplier)
    {
      var hit := CheckCollision();
      if hit {
        gameState := gameState.(lives := gameState.lives - 1, crashToast := true);
        FilterOnTrack(obstacles, ClearOfBand(gameState.carLane), lanes);
        obstacles := Filter(obstacles, ClearOfBand(gameState.carLane));
        if gameState.lives <= 0 {
          gameState := gameState.(isGameOver := true, isGameRunning := false);
        }
      }
    }

    /** `moveCarLeft`: one lane to the left, or no change in the leftmost lane. */
    method MoveCarLeft()
      requires Valid()
      modifies this
      ensures Valid()
      ensures old(gameState.carLane) > 0 ==> gameState.carLane == old(gameState.carLane) - 1
      ensures old(gameState.carLane) == 0 ==> gameState.carLane == 0
      ensures gameState == old(gameState).(carLane := gameState.carLane)
      ensures obstacles == old(obstacles) && sensorSpeedMultiplier == old(sensorSpeedMultiplier)
    {
      if gameState.carLane > 0 {
        gameState := gameState.(carLane := gameState.carLane - 1);
      }
    }

    /** `moveCarRight`: one lane to the right, or no change in the rightmost lane. */
    method MoveCarRight()
      requires Valid()
      modifies this
      ensures Valid()
      ensures old(gameState.carLane) < lanes - 1 ==> gameState.carLane == old(gameState.carLane) + 1
      ensures old(gameState.carLane) == lanes - 1 ==> gameState.carLane == lanes - 1
      ensures gameState == old(gameState).(carLane := gameState.carLane)
      ensures obstacles == old(obstacles) && sensorSpeedMultiplier == old(sensorSpeedMultiplier)
    {
      if gameState.carLane < lanes - 1 {
        gameState := gameState.(carLane := gameState.carLane + 1);
      }
    }

    /**
     * One iteration of the screen's game loop: while a life is left, a tick, coin
     * collection, then the collision check and its handling. The new state is the
     * composition of the four steps: the band of the car's lane is cleared of coins (which
     * are counted) and, when it holds an obstacle after the move and spawn, of obstacles,
     * at the price of one life. Lives fall by at most one, the odometer and the coin count
     * never fall, and the car stays where it is.
     */
    method Tick(spawnRoll: bool, laneChoice: nat, coinRoll: bool, coinLane: nat)
      requires Valid()
      modifies this
      ensures Valid()
      ensures old(gameState.lives) - 1 <= gameState.lives <= old(gameState.lives)
      ensures old(gameState.lives) == 0 ==> gameState == old(gameState) && obstacles == old(obstacles)
      ensures gameState.odometer >= old(gameState.odometer)
      ensures gameState.collectedCoins >= old(gameState.collectedCoins)
      ensures gameState.carLane == old(gameState.carLane)
      ensures sensorSpeedMultiplier == old(sensorSpeedMultiplier)
      ensures |obstacles| <= |old(obstacles)| + 1
      ensures old(gameState.lives) > 0 ==>
                var speed := SpeedFor(speedMode, old(sensorSpeedMultiplier));
                var lane := old(gameState.carLane);
                var moved := SpawnObstacle(Moved(old(obstacles), speed), lanes, spawnRoll, laneChoice);
                var coins := MovedCoins(old(gameState.coins), speed, lanes, coinRoll, coinLane);
                && obstacles == (if Collides(moved, lane) then Filter(moved, ClearOfBand(lane)) else moved)
                && (gameState.lives == old(gameState.lives) - 1 <==> Collides(moved, lane))
                && gameState.lives == old(gameState.lives) - (if Collides(moved, lane) then 1 else 0)
                && gameState.crashToast == (old(gameState.crashToast) || Collides(moved, lane))
                && gameState.isGameOver == (gameState.lives == 0)
                && gameState.isGameRunning == (old(gameState.isGameRunning) && gameState.lives != 0)
                && gameState.odometer == old(gameState.odometer) + TruncateToInt(speed * 100.0)
                && gameState.coins == Filter(coins, ClearOfBand(lane))
                && gameState.collectedCoins == old(gameState.collectedCoins) + |Filter(coins, BandTest(lane))|
    {
      if gameState.lives > 0 {
        ghost var lane := gameState.carLane;
        MoveObstacle(spawnRoll, laneChoice, coinRoll, coinLane);
        ghost var moved := obstacles;
        CollectCoin();
        var hit := CheckCollision();
        assert hit == Collides(moved, lane);
        if hit {
          HandleCollision();
        }
      }
    }
  }
}
